/** The screen's state and its two actions, submitting a query and saving it. The remote services
    appear only as the outcomes they hand back: the model's reply, the result of writing the
    day's count, and the result of adding a record to the history. */
module Session {
  import opened Options
  import opened Strings
  import opened Messages
  import opened Quota
  import opened ResponseView
  import opened History

  /** What a call to the language model gives back: it threw (transport error, bad JSON, missing
      key), it answered without any candidate part, or it answered with the text of the first
      part. */
  datatype Reply = Failed(message: string) | EmptyReply | Answer(text: string)

  /** What writing the day's count to the store gives back. */
  datatype Write = Written | WriteFailed(message: string)

  /** What adding a record to the history collection gives back: the new record's id and the
      time the server stamped on it, or the error. */
  datatype Add = Added(id: string, timestamp: int) | AddFailed(message: string)

  /** The screen's state. `count` mirrors the day's count document through its subscription, and
      `history` is the user's saved-query collection as fetched, before the newest-first sort; a
      save places its record last. */
  datatype State = State(
    query: string,
    response: string,
    recommendation: string,
    error: string,
    count: Option<int>,
    registered: bool,
    history: seq<SavedQuery>)

  /** The submit handler goes on to call the model: the query is not blank and the day's limit
      has not been reached. */
  predicate Admits(s: State) {
    !IsBlank(s.query) && !LimitReached(s.count, s.registered)
  }

  /** Everything a successful submit leads to: the count goes up and the model answered. */
  predicate Counts(s: State, reply: Reply, write: Write) {
    Admits(s) && reply.Answer? && write.Written?
  }

  /** The recommendation and error left once the follow-up recommendation call settles. */
  function Recommend(advice: Reply): (r: (string, string))
    ensures r.1 != "" <==> advice.Failed?
    ensures advice.Failed? ==> r.1 == RecommendationErrorPrefix + advice.message
    ensures advice.Answer? ==> r.0 == advice.text
    ensures !advice.Answer? ==> r.0 != ""
    ensures advice.EmptyReply? ==> r.0 == NoRecommendation
    ensures advice.Failed? ==> r.0 == RecommendationFailed
  {
    match advice
    case Answer(text) => (text, "")
    case EmptyReply => (NoRecommendation, "")
    case Failed(m) => (RecommendationFailed, RecommendationErrorPrefix + m)
  }

  /** The submit handler, run to the point where every call it starts has settled. A blank query
      and a reached limit are refused with their message before any call is made, so the result
      does not depend on any reply; otherwise the model is asked, the count is written back one
      higher only when the reply carries content and the write succeeds, and the recommendation
      follows that answer. */
  function Submit(s: State, lang: Lang, reply: Reply, write: Write, advice: Reply): (r: State)
    ensures r.query == s.query && r.registered == s.registered && r.history == s.history
    ensures IsBlank(s.query) ==> r == s.(error := QueryPlaceholder(lang))
    ensures !IsBlank(s.query) && LimitReached(s.count, s.registered)
            ==> r == s.(error := LimitMessage(lang, Limit(s.registered)))
    ensures Counts(s, reply, write) ==> r.count == Some(Prior(s.count) + 1) && r.response == reply.text
    ensures !Counts(s, reply, write) ==> r.count == s.count
  {
    if IsBlank(s.query) then
      s.(error := QueryPlaceholder(lang))
    else if LimitReached(s.count, s.registered) then
      s.(error := LimitMessage(lang, Limit(s.registered)))
    else
      var asking := s.(response := Processing(lang), recommendation := "", error := "");
      match reply
      case Failed(m) => asking.(error := CallErrorMessage(lang, m), response := "")
      case EmptyReply => asking.(response := NoClearResponse(lang))
      case Answer(text) =>
        match write
        // The answer is shown, then the failed count write lands in the same error handler
        // as a failed call, which clears it.
        case WriteFailed(m) => asking.(error := CallErrorMessage(lang, m), response := "")
        case Written =>
          var (recommendation, error) := Recommend(advice);
          asking.(response := text, count := Bump(s.count), recommendation := recommendation, error := error)
  }

  /** An admitted press whose call throws shows no response and the connection error with the
      error's own message; the count is left alone. */
  lemma SubmitCallFails(s: State, lang: Lang, m: string, write: Write, advice: Reply)
    requires Admits(s)
    ensures Submit(s, lang, Failed(m), write, advice)
         == s.(response := "", recommendation := "", error := CallErrorMessage(lang, m))
  {
  }

  /** An admitted press answered without content shows the "no clear answer" text, with no
      error, and is not counted. */
  lemma SubmitEmptyReply(s: State, lang: Lang, write: Write, advice: Reply)
    requires Admits(s)
    ensures Submit(s, lang, EmptyReply, write, advice)
         == s.(response := NoClearResponse(lang), recommendation := "", error := "")
  {
  }

  /** An answer whose count write fails ends in the same handler as a failed call: the answer is
      not kept and the count is left alone. */
  lemma SubmitWriteFails(s: State, lang: Lang, text: string, m: string, advice: Reply)
    requires Admits(s)
    ensures Submit(s, lang, Answer(text), WriteFailed(m), advice)
         == s.(response := "", recommendation := "", error := CallErrorMessage(lang, m))
  {
  }

  /** A counted answer is shown, the count goes up by one, and the recommendation and error are
      those the recommendation call settles with. */
  lemma SubmitCounted(s: State, lang: Lang, text: string, advice: Reply)
    requires Admits(s)
    ensures Submit(s, lang, Answer(text), Written, advice)
         == s.(response := text, count := Some(Prior(s.count) + 1),
               recommendation := Recommend(advice).0, error := Recommend(advice).1)
  {
  }

  /** The save handler. It is refused while the store is not ready and whenever the query or the
      response is blank; otherwise the record is added with the current query, response and
      recommendation, and the server's id and time. */
  function Save(s: State, lang: Lang, storeReady: bool, add: Add): (r: State)
    ensures r.query == s.query && r.response == s.response && r.recommendation == s.recommendation
    ensures r.count == s.count && r.registered == s.registered
    ensures !storeReady ==> r == s.(error := DbNotReady(lang) + DbNotReadyOnSaveSuffix)
    ensures storeReady && (IsBlank(s.query) || IsBlank(s.response))
            ==> r == s.(error := NoQueryOrResponse(lang))
    ensures r.history != s.history <==> storeReady && !IsBlank(s.query) && !IsBlank(s.response) && add.Added?
    ensures r.history != s.history ==> r.history == s.history + [Record(s, add)]
    ensures storeReady && !IsBlank(s.query) && !IsBlank(s.response)
            ==> r.error == (if add.Added? then "" else SaveErrorMessage(lang, add.message))
  {
    if !storeReady then
      s.(error := DbNotReady(lang) + DbNotReadyOnSaveSuffix)
    else if IsBlank(s.query) || IsBlank(s.response) then
      s.(error := NoQueryOrResponse(lang))
    else
      match add
      case Added(id, timestamp) => s.(history := s.history + [Record(s, add)], error := "")
      case AddFailed(m) => s.(error := SaveErrorMessage(lang, m))
  }

  /** The record a save writes. */
  function Record(s: State, add: Add): SavedQuery
    requires add.Added?
  {
    SavedQuery(add.id, s.query, s.response, s.recommendation, Some(add.timestamp))
  }

  /** The history as the screen lists it. */
  function Listed(s: State): seq<SavedQuery> {
    SortNewestFirst(s.history)
  }

  /** The blocks of the response panel: it shows the response only while there is one and no
      error is displayed. */
  function Shown(s: State): (b: seq<Block>)
    ensures b == [] <==> s.error != [] || IsBlank(s.response)
    ensures b != [] ==> b == Render(s.response)
  {
    RenderEmptyIffBlank(s.response);
    if s.response != [] && s.error == [] then Render(s.response) else []
  }

  /** One press of the submit button with the outcomes its calls would have. */
  datatype Attempt = Attempt(reply: Reply, write: Write, advice: Reply)

  /** Presses of the submit button one after another, each settling before the next. */
  function Run(s: State, lang: Lang, attempts: seq<Attempt>): State
    decreases |attempts|
  {
    if attempts == [] then s
    else
      var a := attempts[0];
      Run(Submit(s, lang, a.reply, a.write, a.advice), lang, attempts[1..])
  }

  /** However the calls turn out, presses one after another never lower the day's count and
      never take it past the limit (unless it started above it), and leave the query, the
      registration and the history alone. */
  lemma {:induction false} RunKeepsQuota(s: State, lang: Lang, attempts: seq<Attempt>)
    ensures var t := Run(s, lang, attempts);
      && Prior(s.count) <= Prior(t.count)
      && Prior(t.count) <= (if Prior(s.count) <= Limit(s.registered) then Limit(s.registered) else Prior(s.count))
      && t.query == s.query && t.registered == s.registered && t.history == s.history
    decreases |attempts|
  {
    if attempts != [] {
      var a := attempts[0];
      var u := Submit(s, lang, a.reply, a.write, a.advice);
      RunKeepsQuota(u, lang, attempts[1..]);
    }
  }

  /** One answered press below the limit: the count goes up by one and the press keeps the
      query and the registration. */
  lemma AnsweredStep(s: State, lang: Lang, a: Attempt)
    requires !IsBlank(s.query) && !LimitReached(s.count, s.registered)
    requires a.reply.Answer? && a.write.Written?
    ensures var u := Submit(s, lang, a.reply, a.write, a.advice);
      u.count == Some(Prior(s.count) + 1) && u.query == s.query && u.registered == s.registered
  {
    assert Counts(s, a.reply, a.write);
  }

  /** Every successful query counts exactly once: `n` answered presses below the limit raise the
      count by `n`. */
  lemma {:induction false} RunCountsAnswers(s: State, lang: Lang, attempts: seq<Attempt>)
    requires !IsBlank(s.query)
    requires forall k | 0 <= k < |attempts| :: attempts[k].reply.Answer? && attempts[k].write.Written?
    requires s.count.Some? || |attempts| > 0
    requires Prior(s.count) + |attempts| <= Limit(s.registered)
    ensures Run(s, lang, attempts).count == Some(Prior(s.count) + |attempts|)
    decreases |attempts|
  {
    if attempts != [] {
      var a := attempts[0];
      var rest := attempts[1..];
      AnsweredStep(s, lang, a);
      var u := Submit(s, lang, a.reply, a.write, a.advice);
      assert forall k | 0 <= k < |rest| :: rest[k] == attempts[k + 1];
      RunCountsAnswers(u, lang, rest);
      assert Run(s, lang, attempts) == Run(u, lang, rest);
    } else {
      assert s.count == Some(Prior(s.count));
    }
  }

  /** Once the answered presses have used up the day's limit, the next press is refused with the
      limit message whatever its calls would have returned, and the count stays at the limit. */
  lemma QuotaExhausts(s: State, lang: Lang, attempts: seq<Attempt>)
    requires !IsBlank(s.query)
    requires forall k | 0 <= k < |attempts| :: attempts[k].reply.Answer? && attempts[k].write.Written?
    requires Prior(s.count) + |attempts| == Limit(s.registered)
    ensures var t := Run(s, lang, attempts);
      && t.count == Some(Limit(s.registered))
      && forall reply, write, advice ::
           Submit(t, lang, reply, write, advice) == t.(error := LimitMessage(lang, Limit(s.registered)))
  {
    RunCountsAnswers(s, lang, attempts);
    RunKeepsQuota(s, lang, attempts);
  }

  /** A refused press leaves an error on screen, so no response is shown. */
  lemma RefusedShowsNothing(s: State, lang: Lang, reply: Reply, write: Write, advice: Reply)
    requires !Admits(s)
    ensures Shown(Submit(s, lang, reply, write, advice)) == []
  {
  }

  /** After an answered press whose recommendation call did not fail, the panel shows the blocks
      of the answer. */
  lemma AnswerShown(s: State, lang: Lang, text: string, advice: Reply)
    requires Admits(s) && !advice.Failed?
    ensures Shown(Submit(s, lang, Answer(text), Written, advice)) == Render(text)
  {
    SubmitCounted(s, lang, text, advice);
  }

  /** A successful save adds exactly its record to the listed history, which stays newest first,
      and the record keeps the query, response and recommendation as they were. */
  lemma SaveListsRecord(s: State, lang: Lang, id: string, timestamp: int)
    requires !IsBlank(s.query) && !IsBlank(s.response)
    ensures var r := Save(s, lang, true, Added(id, timestamp));
      && multiset(Listed(r)) == multiset(Listed(s)) + multiset{Record(s, Added(id, timestamp))}
      && NewestFirst(Listed(r))
      && Record(s, Added(id, timestamp)) in Listed(r)
  {
    var r := Save(s, lang, true, Added(id, timestamp));
    assert Record(s, Added(id, timestamp)) in multiset(Listed(r));
  }
}
