/**
 Text generation with fallbacks, `query_huggingface` of backend/app.py, and the translation
 routing `translate_text` built on it. The remote inference service, the local generator and
 the clock are outside the model: a `GenEnv` lists what each of the (at most three) remote
 attempts would meet and what the local generator would do, and the backoff sleeps are
 reported as a sequence of delays in seconds instead of being slept.
 */
module Generation {
  import opened Wrappers
  import opened PyStrings

  /** `for attempt in range(3)` */
  const MaxAttempts: nat := 3

  /** The fixed reply when neither the remote service nor the local generator produced text. */
  const Apology: string :=
    "I apologize, but I'm having trouble generating a response right now. Please try again later."

  /** What one `requests.post` attempt meets. `Response(200, None)` is a 200 whose body cannot
      be read as `[{"generated_text": <str>}]`: reading it raises inside the attempt. */
  datatype RemoteOutcome =
    | Response(status: int, generatedText: Option<string>)
    | TimedOut      // `requests.exceptions.Timeout`
    | Raised        // any other exception of the request

  /** The local `transformers` pipeline: not loaded, producing a text, or raising. */
  datatype LocalOutcome = NoGenerator | Generates(text: string) | GeneratorFails

  type RemoteScript = s: seq<RemoteOutcome> | |s| == MaxAttempts
    witness [TimedOut, TimedOut, TimedOut]

  datatype GenEnv = GenEnv(remote: RemoteScript, local: LocalOutcome)

  /** The remote part of one call: the cleaned text of a successful attempt if any, how many
      attempts were made, and the backoff delays slept between them. */
  datatype RemoteRun = RemoteRun(reply: Option<string>, attempts: nat, delays: seq<nat>)

  /** `time.sleep(2 ** attempt)` */
  function Backoff(attempt: nat): (seconds: nat)
    ensures seconds >= 1
  {
    if attempt == 0 then 1 else 2 * Backoff(attempt - 1)
  }

  /** `generated_text.replace(prompt, "").strip()`: every echo of the prompt removed, then
      surrounding whitespace. */
  function Clean(text: string, prompt: string): string {
    Strip(RemoveAll(text, prompt))
  }

  /** An attempt after which the loop goes on: a rate limit (429) or a timeout. */
  predicate Retries(outcome: RemoteOutcome) {
    outcome.TimedOut? || (outcome.Response? && outcome.status == 429)
  }

  /** An attempt that returns text: a 200 with a readable body. */
  predicate Succeeds(outcome: RemoteOutcome) {
    outcome.Response? && outcome.status == 200 && outcome.generatedText.Some?
  }

  /** The remote loop from `attempt` on. A success returns, a rate limit sleeps and goes on, a
      timeout goes on at once, and anything else (another status, an unreadable 200 body, another
      exception) breaks out of the loop. */
  function RemoteFrom(script: RemoteScript, attempt: nat, prompt: string): (run: RemoteRun)
    requires attempt <= MaxAttempts
    ensures attempt < MaxAttempts ==> 1 <= run.attempts <= MaxAttempts - attempt
    ensures attempt == MaxAttempts ==> run == RemoteRun(None, 0, [])
    ensures |run.delays| <= run.attempts
    decreases MaxAttempts - attempt
  {
    if attempt == MaxAttempts then RemoteRun(None, 0, [])
    else
      var outcome := script[attempt];
      if Succeeds(outcome) then RemoteRun(Some(Clean(outcome.generatedText.value, prompt)), 1, [])
      else if Retries(outcome) then
        var rest := RemoteFrom(script, attempt + 1, prompt);
        var pause := if outcome.TimedOut? then [] else [Backoff(attempt)];
        RemoteRun(rest.reply, rest.attempts + 1, pause + rest.delays)
      else RemoteRun(None, 1, [])
  }

  /** What the local generator leaves: its cleaned text, or the apology. */
  function LocalOrApology(prompt: string, local: LocalOutcome): string {
    if local.Generates? then Clean(local.text, prompt) else Apology
  }

  /** `query_huggingface(prompt)`: the remote reply, else the local generator, else the apology. */
  function Query(prompt: string, env: GenEnv): string {
    var run := RemoteFrom(env.remote, 0, prompt);
    if run.reply.Some? then run.reply.value else LocalOrApology(prompt, env.local)
  }

  /** The control flow of `query_huggingface`, step by step: the remote attempts, then the local
      generator, then the apology. Besides the text it reports how many remote attempts were made
      and the backoff sleeps in order. */
  method QueryHuggingface(prompt: string, env: GenEnv) returns (text: string, attempts: nat, delays: seq<nat>)
    ensures text == Query(prompt, env)
    ensures attempts == RemoteFrom(env.remote, 0, prompt).attempts
    ensures delays == RemoteFrom(env.remote, 0, prompt).delays
  {
    var reply;
    reply, attempts, delays := RemoteAttempts(prompt, env.remote);
    if reply.Some? {
      return reply.value, attempts, delays;
    }
    match env.local {
      case Generates(t) => text := Clean(t, prompt);
      case _ => text := Apology;
    }
  }

  /** The `for attempt in range(3)` loop of `query_huggingface`: the cleaned text it returns,
      if any, how many requests it made and the sleeps between them. */
  method RemoteAttempts(prompt: string, script: RemoteScript)
    returns (reply: Option<string>, attempts: nat, delays: seq<nat>)
    ensures reply == RemoteFrom(script, 0, prompt).reply
    ensures attempts == RemoteFrom(script, 0, prompt).attempts
    ensures delays == RemoteFrom(script, 0, prompt).delays
  {
    ghost var whole := RemoteFrom(script, 0, prompt);
    attempts, delays := 0, [];
    var attempt := 0;
    while attempt < MaxAttempts
      invariant attempt <= MaxAttempts && attempts == attempt
      invariant whole.reply == RemoteFrom(script, attempt, prompt).reply
      invariant whole.attempts == attempts + RemoteFrom(script, attempt, prompt).attempts
      invariant whole.delays == delays + RemoteFrom(script, attempt, prompt).delays
      decreases MaxAttempts - attempt
    {
      var outcome := script[attempt];
      attempts := attempts + 1;
      if outcome.Response? && outcome.status == 200 {
        DecisiveStep(script, attempt, prompt);
        if outcome.generatedText.Some? {
          assert delays + [] == delays;
          return Some(Clean(outcome.generatedText.value, prompt)), attempts, delays;
        }
        break;
      } else if outcome.Response? && outcome.status == 429 {
        RetryStep(script, attempt, prompt);
        RateLimitDelay(script, attempt, prompt, delays);
        delays := delays + [Backoff(attempt)];
      } else if outcome.TimedOut? {
        RetryStep(script, attempt, prompt);
        TimeoutDelay(script, attempt, prompt);
      } else {
        DecisiveStep(script, attempt, prompt);
        break;
      }
      attempt := attempt + 1;
    }
    assert delays + [] == delays;
    return None, attempts, delays;
  }

  // ---------------------------------------------------------------------------
  // Properties of the fallback chain
  // ---------------------------------------------------------------------------

  /** The backoff doubles from one second: 1, 2 and 4 seconds for the three attempts. */
  lemma BackoffValues()
    ensures Backoff(0) == 1 && Backoff(1) == 2 && Backoff(2) == 4
  {
  }

  /** The delays slept in a run are the backoffs of exactly the rate-limited attempts it made,
      in order. */
  function RateLimitDelays(script: RemoteScript, lo: nat, hi: nat): (delays: seq<nat>)
    requires lo <= hi <= MaxAttempts
    ensures |delays| <= hi - lo
    decreases hi - lo
  {
    if lo == hi then []
    else
      var outcome := script[lo];
      (if outcome.Response? && outcome.status == 429 then [Backoff(lo)] else [])
        + RateLimitDelays(script, lo + 1, hi)
  }

  lemma {:induction false} DelaysAreRateLimitBackoffs(script: RemoteScript, attempt: nat, prompt: string)
    requires attempt <= MaxAttempts
    ensures var run := RemoteFrom(script, attempt, prompt);
      attempt + run.attempts <= MaxAttempts
      && run.delays == RateLimitDelays(script, attempt, attempt + run.attempts)
    decreases MaxAttempts - attempt
  {
    if attempt < MaxAttempts {
      var outcome := script[attempt];
      if Retries(outcome) {
        var rest := RemoteFrom(script, attempt + 1, prompt);
        DelaysAreRateLimitBackoffs(script, attempt + 1, prompt);
        RetryStep(script, attempt, prompt);
        if outcome.TimedOut? {
          TimeoutDelay(script, attempt, prompt);
          assert [] + rest.delays == rest.delays;
        } else {
          RateLimitDelay(script, attempt, prompt, []);
          assert [] + [Backoff(attempt)] == [Backoff(attempt)];
        }
      } else {
        DecisiveStep(script, attempt, prompt);
        assert RateLimitDelays(script, attempt + 1, attempt + 1) == [];
      }
    }
  }

  /** The first attempt that is not a rate limit or timeout decides the remote part: a success
      returns its cleaned text, anything else ends the remote part with no text; either way
      exactly `k + 1` attempts were made and later outcomes are never looked at. */
  lemma {:induction false} FirstDecisiveAttempt(script: RemoteScript, k: nat, prompt: string, from: nat)
    requires from <= k < MaxAttempts && !Retries(script[k])
    requires forall j :: from <= j < k ==> Retries(script[j])
    ensures var run := RemoteFrom(script, from, prompt);
      && run.attempts == k + 1 - from
      && (Succeeds(script[k]) ==> run.reply == Some(Clean(script[k].generatedText.value, prompt)))
      && (!Succeeds(script[k]) ==> run.reply == None)
    decreases k - from
  {
    if from < k {
      RetryStep(script, from, prompt);
      FirstDecisiveAttempt(script, k, prompt, from + 1);
    } else {
      DecisiveStep(script, k, prompt);
    }
  }

  /** One rate limit or timeout: one attempt more than the rest of the loop, and the same reply. */
  lemma RetryStep(script: RemoteScript, attempt: nat, prompt: string)
    requires attempt < MaxAttempts && Retries(script[attempt])
    ensures var run := RemoteFrom(script, attempt, prompt);
      var rest := RemoteFrom(script, attempt + 1, prompt);
      run.reply == rest.reply && run.attempts == rest.attempts + 1
  {
  }

  /** A rate limit sleeps its backoff before the rest of the loop's sleeps. */
  lemma RateLimitDelay(script: RemoteScript, attempt: nat, prompt: string, before: seq<nat>)
    requires attempt < MaxAttempts && script[attempt].Response? && script[attempt].status == 429
    ensures before + RemoteFrom(script, attempt, prompt).delays
         == before + [Backoff(attempt)] + RemoteFrom(script, attempt + 1, prompt).delays
  {
    assert Retries(script[attempt]);
  }

  /** A timeout retries at once, without sleeping. */
  lemma TimeoutDelay(script: RemoteScript, attempt: nat, prompt: string)
    requires attempt < MaxAttempts && script[attempt].TimedOut?
    ensures RemoteFrom(script, attempt, prompt).delays == RemoteFrom(script, attempt + 1, prompt).delays
  {
    assert [] + RemoteFrom(script, attempt + 1, prompt).delays == RemoteFrom(script, attempt + 1, prompt).delays;
  }

  /** Any other outcome ends the loop after this one attempt, with text exactly for a success. */
  lemma DecisiveStep(script: RemoteScript, attempt: nat, prompt: string)
    requires attempt < MaxAttempts && !Retries(script[attempt])
    ensures RemoteFrom(script, attempt, prompt)
         == RemoteRun(if Succeeds(script[attempt]) then Some(Clean(script[attempt].generatedText.value, prompt))
                      else None, 1, [])
  {
  }

  /** The first 200 response with a readable body wins, after any number of rate limits and
      timeouts. */
  lemma FirstSuccessWins(env: GenEnv, k: nat, prompt: string)
    requires k < MaxAttempts && Succeeds(env.remote[k])
    requires forall j :: 0 <= j < k ==> Retries(env.remote[j])
    ensures Query(prompt, env) == Clean(env.remote[k].generatedText.value, prompt)
  {
    FirstDecisiveAttempt(env.remote, k, prompt, 0);
  }

  /** Another status, an unreadable 200 body or another exception abandons the remaining
      attempts: the answer comes from the local generator or is the apology. */
  lemma HardFailureAbandonsRemote(env: GenEnv, k: nat, prompt: string)
    requires k < MaxAttempts && !Retries(env.remote[k]) && !Succeeds(env.remote[k])
    requires forall j :: 0 <= j < k ==> Retries(env.remote[j])
    ensures RemoteFrom(env.remote, 0, prompt).attempts == k + 1
    ensures Query(prompt, env) == LocalOrApology(prompt, env.local)
  {
    FirstDecisiveAttempt(env.remote, k, prompt, 0);
  }

  /** Three rate limits in a row: sleeps of 1, 2 and 4 seconds, then the local generator or the
      apology. */
  lemma RateLimitedThrice(env: GenEnv, prompt: string)
    requires forall j :: 0 <= j < MaxAttempts ==> env.remote[j].Response? && env.remote[j].status == 429
    ensures RemoteFrom(env.remote, 0, prompt) == RemoteRun(None, 3, [1, 2, 4])
    ensures Query(prompt, env) == LocalOrApology(prompt, env.local)
  {
    assert Retries(env.remote[2]) && Retries(env.remote[1]) && Retries(env.remote[0]);
    BackoffValues();
  }

  /** The answer is always one of three things: the cleaned text of a successful attempt, the
      cleaned text of the local generator, or the apology; and it is the apology whenever
      neither source produced text. */
  lemma QueryOutcomes(env: GenEnv, prompt: string)
    ensures var text := Query(prompt, env);
      || (exists k :: 0 <= k < MaxAttempts && Succeeds(env.remote[k])
            && text == Clean(env.remote[k].generatedText.value, prompt))
      || (env.local.Generates? && text == Clean(env.local.text, prompt))
      || text == Apology
    ensures (forall k :: 0 <= k < MaxAttempts ==> !Succeeds(env.remote[k])) && !env.local.Generates?
        ==> Query(prompt, env) == Apology
  {
    var run := RemoteFrom(env.remote, 0, prompt);
    if run.reply.Some? {
      var k := SuccessfulAttempt(env.remote, 0, prompt);
    }
  }

  /** A remote reply comes from some successful attempt. */
  lemma {:induction false} SuccessfulAttempt(script: RemoteScript, from: nat, prompt: string) returns (k: nat)
    requires from <= MaxAttempts && RemoteFrom(script, from, prompt).reply.Some?
    ensures from <= k < MaxAttempts && Succeeds(script[k])
    ensures RemoteFrom(script, from, prompt).reply == Some(Clean(script[k].generatedText.value, prompt))
    decreases MaxAttempts - from
  {
    if Succeeds(script[from]) {
      k := from;
    } else {
      k := SuccessfulAttempt(script, from + 1, prompt);
    }
  }

  /** A generated text that echoes the prompt once at its front loses the echo. */
  lemma EchoRemoved(prompt: string, continuation: string)
    requires prompt != [] && !Contains(continuation, prompt)
    ensures Clean(prompt + continuation, prompt) == Strip(continuation)
  {
    ReplaceAtFront(continuation, prompt, "");
    ReplaceAbsent(continuation, prompt, "");
    assert RemoveAll(prompt + continuation, prompt) == "" + continuation == continuation;
  }

  /** A generated text that is nothing but the prompt (and whitespace) gives an empty answer. */
  lemma EchoOnlyGivesEmpty(env: GenEnv, prompt: string)
    requires prompt != [] && Succeeds(env.remote[0]) && env.remote[0].generatedText.value == prompt
    ensures Query(prompt, env) == []
  {
    ReplaceAtFront([], prompt, "");
    assert prompt + [] == prompt;
  }

  // ---------------------------------------------------------------------------
  // Translation
  // ---------------------------------------------------------------------------

  /** The language named in the translation prompt: Telugu for `te`, Hindi for anything else. */
  function TargetLanguage(lang: string): string {
    if lang == "te" then "Telugu" else "Hindi"
  }

  /** `f"Translate to {language}: {text}"` */
  function TranslationPrompt(text: string, lang: string): string {
    "Translate to " + TargetLanguage(lang) + ": " + text
  }

  /** `translate_text(text, target_lang)`. Its `except` branch, which would return the original
      text, cannot be taken: `query_huggingface` catches everything itself. */
  function TranslateText(text: string, lang: string, env: GenEnv): string {
    if lang == "en" then text else Query(TranslationPrompt(text, lang), env)
  }

  /** `translate_text` as the endpoints run it: English is returned as it is, `te` is asked for
      in Telugu and every other code in Hindi. */
  method Translate(text: string, lang: string, env: GenEnv) returns (translated: string)
    ensures translated == TranslateText(text, lang, env)
    ensures lang == "en" ==> translated == text
    ensures lang == "te" ==> translated == Query("Translate to Telugu: " + text, env)
    ensures lang != "en" && lang != "te" ==> translated == Query("Translate to Hindi: " + text, env)
  {
    TranslationRouting(text, lang, env);
    if lang == "en" {
      return text;
    }
    var attempts, delays;
    translated, attempts, delays := QueryHuggingface(TranslationPrompt(text, lang), env);
  }

  /** English passes through untouched and makes no request; `te` asks for Telugu; every other
      code, known or not, asks for Hindi. */
  lemma TranslationRouting(text: string, lang: string, env: GenEnv)
    ensures lang == "en" ==> TranslateText(text, lang, env) == text
    ensures lang == "te" ==> TranslateText(text, lang, env)
                             == Query("Translate to Telugu: " + text, env)
    ensures lang != "en" && lang != "te" ==> TranslateText(text, lang, env)
                                             == Query("Translate to Hindi: " + text, env)
  {
    assert "Translate to " + "Telugu" + ": " + text == "Translate to Telugu: " + text;
    assert "Translate to " + "Hindi" + ": " + text == "Translate to Hindi: " + text;
  }

  /** When every remote attempt fails and there is no local text, a non-English translation is
      the apology, not the original text. */
  lemma FailedTranslationIsApology(text: string, lang: string, env: GenEnv)
    requires lang != "en" && !env.local.Generates?
    requires forall k :: 0 <= k < MaxAttempts ==> !Succeeds(env.remote[k])
    ensures TranslateText(text, lang, env) == Apology
  {
    QueryOutcomes(env, TranslationPrompt(text, lang));
  }
}
