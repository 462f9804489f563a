/**
 The disease class table: the name-to-id map loaded with the image model is inverted into
 an id-to-name map, and a predicted class id is looked up in it with an `Unknown_<id>` default.
 */
module ClassTable {
  import opened PyStrings

  /** `{v: k for k, v in class_indices.items()}` over the map's items in iteration order: every
      listed id is a key and no other id is (which name an id keeps is `LastListingWins`). */
  function Invert(items: seq<(string, int)>): (table: map<int, string>)
    ensures table.Keys == set i | 0 <= i < |items| :: items[i].1
  {
    if items == [] then map[]
    else
      var last := items[|items| - 1];
      var front := items[..|items| - 1];
      assert forall i :: 0 <= i < |front| ==> front[i] == items[i];
      assert (set i | 0 <= i < |items| :: items[i].1)
          == (set i | 0 <= i < |front| :: front[i].1) + {last.1};
      Invert(front)[last.1 := last.0]
  }

  /** No later item of `items` lists the id of item `i`. */
  predicate LastListing(items: seq<(string, int)>, i: nat)
    requires i < |items|
  {
    forall j :: i < j < |items| ==> items[j].1 != items[i].1
  }

  const UnknownPrefix: string := "Unknown_"

  /** `disease_class_names.get(disease_label, f"Unknown_{disease_label}")` */
  function ClassLabel(table: map<int, string>, id: nat): string {
    if id in table then table[id] else UnknownPrefix + NatToString(id)
  }

  /** The class name of the item that lists an id last is what the table returns for it. */
  lemma {:induction false} LastListingWins(items: seq<(string, int)>, i: nat)
    requires i < |items| && LastListing(items, i)
    ensures items[i].1 in Invert(items) && Invert(items)[items[i].1] == items[i].0
    decreases |items|
  {
    var front := items[..|items| - 1];
    if i < |items| - 1 {
      assert front[i] == items[i];
      assert LastListing(front, i);
      LastListingWins(front, i);
    }
  }

  /** A name-to-id map whose ids are distinct (one class per id, as the trainer writes it)
      round-trips: every class name comes back from its own id. */
  lemma RoundTrip(items: seq<(string, int)>, i: nat)
    requires i < |items|
    requires forall a, b :: 0 <= a < b < |items| ==> items[a].1 != items[b].1
    ensures items[i].1 in Invert(items) && Invert(items)[items[i].1] == items[i].0
  {
    LastListingWins(items, i);
  }

  /** An id missing from the table is never an error: it is reported as `Unknown_<id>`, in
      decimal without leading zeros. */
  lemma AbsentIdLabel(table: map<int, string>, id: nat)
    requires id !in table
    ensures var name := ClassLabel(table, id);
      && StartsWith(name, UnknownPrefix) && |name| > |UnknownPrefix|
      && (forall k :: |UnknownPrefix| <= k < |name| ==> IsDigit(name[k]))
      && DecimalValue(name[|UnknownPrefix|..]) == id
      && (name[|UnknownPrefix|] == '0' ==> |name| == |UnknownPrefix| + 1)
  {
    var name := ClassLabel(table, id);
    var digits := NatToString(id);
    assert name[|UnknownPrefix|..] == digits;
    assert forall k :: |UnknownPrefix| <= k < |name| ==> name[k] == digits[k - |UnknownPrefix|];
  }
}
