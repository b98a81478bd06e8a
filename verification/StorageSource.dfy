/** The renewed storage URL of a download (client/src/storageSource.ts): the closure's variables as an
    object, and every interleaving of the callers that share it. */
module StorageSource {
  import opened Basics

  type Url = nat

  /** Renew this long before a URL expires. */
  const RENEW_MARGIN_MS := 5 * 60000

  /** The gateway's answer. */
  datatype Resolved = Resolved(url: Url, expiresIn: Option<nat>, continuation: Option<nat>)

  /** The refresh in progress: its number, when it was asked, the URL it is to replace, and, once its
      body ran, whether it succeeded. The promise is forgotten only a turn later. */
  datatype Flight = Flight(number: nat, asked: int, stale: Url, settled: Option<bool>)

  /** The closure variables. `expiresAt` None is an infinite life. */
  datatype Source = Source(url: Url, expiresAt: Option<int>, continuation: Option<nat>, inflight: Option<Flight>)
  {
    predicate Due(now: int, margin: int) {
      expiresAt.Some? && now >= expiresAt.value - margin
    }

    predicate Outstanding() { inflight.Some? && inflight.value.settled.None? }

    /** `refresh`: join the refresh in progress or ask for a new one. */
    function Refreshed(now: int, number: nat): Source {
      if inflight.Some? then this else this.(inflight := Some(Flight(number, now, url, None)))
    }

    function Succeeded(r: Resolved): Source
      requires Outstanding()
    {
      this.(url := r.url,
            continuation := if r.continuation.Some? then r.continuation else continuation,
            expiresAt := if r.expiresIn.Some? && r.expiresIn.value != 0
                         then Some(inflight.value.asked + r.expiresIn.value * 1000) else None,
            inflight := Some(inflight.value.(settled := Some(true))))
    }

    function Failed(): Source
      requires Outstanding()
    {
      this.(inflight := Some(inflight.value.(settled := Some(false))))
    }

    function Forgotten(): Source {
      this.(inflight := None)
    }
  }

  /** The object `openStorageSource` returns, with the closure variables as fields. */
  class Closure {
    var url: Url
    var expiresAt: Option<int>
    var continuation: Option<nat>
    var inflight: Option<Flight>

    ghost function Value(): Source
      reads this
    {
      Source(url, expiresAt, continuation, inflight)
    }

    constructor (mediated: Url)
      ensures Value() == Source(mediated, None, None, None)
    {
      url, expiresAt, continuation, inflight := mediated, None, None, None;
    }

    /** Returns the number of the refresh to await. */
    method Refresh(now: int, number: nat) returns (awaited: nat)
      modifies this
      ensures Value() == old(Value()).Refreshed(now, number)
      ensures inflight.Some? && awaited == inflight.value.number
    {
      if inflight.None? {
        inflight := Some(Flight(number, now, url, None));
      }
      awaited := inflight.value.number;
    }

    /** The resolve answered: the body after its await runs to its end. */
    method Resolve(r: Resolved)
      requires Value().Outstanding()
      modifies this
      ensures Value() == old(Value()).Succeeded(r)
    {
      var asked := inflight.value.asked;
      url := r.url;
      if r.continuation.Some? {
        continuation := r.continuation;
      }
      expiresAt := if r.expiresIn.Some? && r.expiresIn.value != 0 then Some(asked + r.expiresIn.value * 1000) else None;
      inflight := Some(inflight.value.(settled := Some(true)));
    }

    method Reject()
      requires Value().Outstanding()
      modifies this
      ensures Value() == old(Value()).Failed()
    {
      inflight := Some(inflight.value.(settled := Some(false)));
    }

    method Finally()
      modifies this
      ensures Value() == old(Value()).Forgotten()
    {
      inflight := None;
    }

    /** `current`: the URL to use at once, or the number of the refresh to await first. */
    method Current(now: int, margin: int, number: nat) returns (wait: Option<nat>)
      modifies this
      ensures wait.None? <==> !old(Value()).Due(now, margin)
      ensures wait.None? ==> Value() == old(Value())
      ensures wait.Some? ==>
        Value() == old(Value()).Refreshed(now, number) && inflight.Some? && wait.value == inflight.value.number
    {
      wait := None;
      if expiresAt.Some? && now >= expiresAt.value - margin {
        var n := Refresh(now, number);
        wait := Some(n);
      }
    }

    /** `renew`: nothing to do when another caller already replaced the stale URL. */
    method Renew(stale: Url, now: int, number: nat) returns (wait: Option<nat>)
      modifies this
      ensures wait.None? <==> old(url) != stale
      ensures wait.None? ==> Value() == old(Value())
      ensures wait.Some? ==>
        Value() == old(Value()).Refreshed(now, number) && inflight.Some? && wait.value == inflight.value.number
    {
      wait := None;
      if url == stale {
        var n := Refresh(now, number);
        wait := Some(n);
      }
    }
  }

  // ───────── callers ─────────

  /** One call of fetchFromStorage. `requests` counts its requests to storage. */
  datatype Caller =
    | Entering
    | AwaitingFirst(flight: nat)
    | Holding(first: Url)
    | Refused(first: Url)
    | AwaitingRenewal(first: Url, flight: nat)
    | Retrying(first: Url, second: Url)
    | Done(requests: nat)

  /** `openStorageSource` itself: before its first refresh, awaiting it, returned, or thrown. */
  datatype Door = Closed | Opening | Open | Shut

  /** The source, its callers, and the history of the run. */
  datatype State = State(
    door: Door,
    source: Source,
    callers: seq<Caller>,
    flights: nat,                     // refreshes started so far
    outcomes: map<nat, bool>,         // how the settled ones ended
    stored: seq<Url>,                 // every URL the source held, oldest first
    superseded: seq<(Url, Url)>,      // per successful resolve: the URL it was to replace, its answer
    asked: nat,                       // calls of resolve made
    answered: nat)                    // calls of resolve that ended

  /** A refused first resolve is terminal when the download limit is spent or the unlock lapsed. */
  datatype Event =
    | AskFirst(now: int)
    | WakeOpening(terminal: bool)
    | Enter
    | TakeUrl(c: nat, now: int)
    | WakeFirst(c: nat)
    | FirstAnswer(c: nat, refused: bool)
    | Renewal(c: nat, now: int)
    | WakeRenewal(c: nat)
    | SecondAnswer(c: nat)
    | ResolveOk(r: Resolved)
    | ResolveFails
    | ForgetFlight

  ghost predicate Ended(s: State, flight: nat) {
    flight in s.outcomes && (s.source.inflight.Some? ==> s.source.inflight.value.number != flight)
  }

  ghost predicate Settled(s: State) {
    s.source.inflight.Some? && s.source.inflight.value.settled.Some?
  }

  ghost predicate Enabled(s: State, e: Event) {
    match e
    case AskFirst(_) => s.door.Closed?
    case WakeOpening(_) => s.door.Opening? && Ended(s, 0)
    case Enter => s.door.Open?
    case TakeUrl(c, _) => c < |s.callers| && s.callers[c].Entering?
    case WakeFirst(c) => c < |s.callers| && s.callers[c].AwaitingFirst? && Ended(s, s.callers[c].flight)
    // The turn that forgets a settled refresh runs before any answer from the network.
    case FirstAnswer(c, _) => c < |s.callers| && s.callers[c].Holding? && !Settled(s)
    case Renewal(c, _) => c < |s.callers| && s.callers[c].Refused?
    case WakeRenewal(c) => c < |s.callers| && s.callers[c].AwaitingRenewal? && Ended(s, s.callers[c].flight)
    case SecondAnswer(c) => c < |s.callers| && s.callers[c].Retrying?
    case ResolveOk(r) => s.source.Outstanding() && r.url !in s.stored     // fresh URLs are distinct
    case ResolveFails => s.source.Outstanding()
    case ForgetFlight => s.source.inflight.Some? && s.source.inflight.value.settled.Some?
  }

  ghost function Refreshing(s: State, now: int): State {
    var starts := s.source.inflight.None?;
    s.(source := s.source.Refreshed(now, s.flights),
       flights := if starts then s.flights + 1 else s.flights,
       asked := if starts then s.asked + 1 else s.asked)
  }

  ghost function Next(s: State, e: Event): State
    requires Enabled(s, e)
  {
    match e
    case AskFirst(now) => Refreshing(s, now).(door := Opening)
    case WakeOpening(terminal) => s.(door := if s.outcomes[0] || !terminal then Open else Shut)
    case Enter => s.(callers := s.callers + [Entering])
    case TakeUrl(c, now) =>
      if s.source.Due(now, RENEW_MARGIN_MS) then
        var t := Refreshing(s, now);
        t.(callers := s.callers[c := AwaitingFirst(t.source.inflight.value.number)])
      else
        s.(callers := s.callers[c := Holding(s.source.url)])
    case WakeFirst(c) =>
      s.(callers := s.callers[c := if s.outcomes[s.callers[c].flight] then Holding(s.source.url) else Done(0)])
    case FirstAnswer(c, refused) =>
      s.(callers := s.callers[c := if refused then Refused(s.callers[c].first) else Done(1)])
    case Renewal(c, now) =>
      var first := s.callers[c].first;
      if s.source.url == first then
        var t := Refreshing(s, now);
        t.(callers := s.callers[c := AwaitingRenewal(first, t.source.inflight.value.number)])
      else
        s.(callers := s.callers[c := Retrying(first, s.source.url)])
    case WakeRenewal(c) =>
      var a := s.callers[c];
      s.(callers := s.callers[c := if s.outcomes[a.flight] then Retrying(a.first, s.source.url) else Done(1)])
    case SecondAnswer(c) => s.(callers := s.callers[c := Done(2)])
    case ResolveOk(r) =>
      var f := s.source.inflight.value;
      s.(source := s.source.Succeeded(r), outcomes := s.outcomes[f.number := true],
         stored := s.stored + [r.url], superseded := s.superseded + [(f.stale, r.url)],
         answered := s.answered + 1)
    case ResolveFails =>
      s.(source := s.source.Failed(), outcomes := s.outcomes[s.source.inflight.value.number := false],
         answered := s.answered + 1)
    case ForgetFlight => s.(source := s.source.Forgotten())
  }

  // ───────── the invariant ─────────

  ghost predicate Distinct(urls: seq<Url>) {
    forall i, j :: 0 <= i < j < |urls| ==> urls[i] != urls[j]
  }

  /** A refresh that is awaited for a stale URL has not ended in success with that URL still stored. */
  ghost predicate CallerFits(s: State, a: Caller) {
    match a
    case AwaitingFirst(k) => k < s.flights && (k in s.outcomes || IsInFlight(s, k))
    case Holding(u) => u in s.stored
    case Refused(u) => u in s.stored && (Settled(s) && s.source.inflight.value.settled.value ==> s.source.url != u)
    case AwaitingRenewal(u, k) =>
      && u in s.stored && k < s.flights && (k in s.outcomes || IsInFlight(s, k))
      && (k in s.outcomes && s.outcomes[k] ==> s.source.url != u)
      && (IsInFlight(s, k) && s.source.Outstanding() ==> s.source.inflight.value.stale == u)
    case Retrying(u, v) => u != v
    case Done(n) => n <= 2
    case Entering => true
  }

  ghost predicate IsInFlight(s: State, k: nat) {
    s.source.inflight.Some? && s.source.inflight.value.number == k
  }

  ghost predicate Good(s: State) {
    && s.stored != [] && Last(s.stored) == s.source.url && Distinct(s.stored)
    && |s.superseded| == |s.stored| - 1
    && (forall i :: 0 <= i < |s.superseded| ==> s.superseded[i] == (s.stored[i], s.stored[i + 1]))
    && s.asked == s.flights
    && s.asked == s.answered + (if s.source.Outstanding() then 1 else 0)
    && (forall k :: k in s.outcomes ==> k < s.flights)
    && (s.source.inflight.Some? ==>
          var f := s.source.inflight.value;
          && f.number < s.flights
          && (f.settled.None? ==> f.stale == s.source.url && f.number !in s.outcomes)
          && (f.settled.Some? ==> f.number in s.outcomes && s.outcomes[f.number] == f.settled.value))
    && (s.door.Closed? ==> s.flights == 0 && s.source.inflight.None?)
    && (0 in s.outcomes && s.outcomes[0] ==> |s.stored| >= 2)
    && (forall c :: 0 <= c < |s.callers| ==> CallerFits(s, s.callers[c]))
  }

  lemma RefreshFits(s: State, now: int)
    requires Good(s)
    ensures Good(Refreshing(s, now).(door := Opening))
    ensures !s.door.Closed? ==> Good(Refreshing(s, now))
    ensures CallerFits(Refreshing(s, now), AwaitingFirst(Refreshing(s, now).source.inflight.value.number))
    ensures !(Settled(s) && s.source.inflight.value.settled.value) ==>
      CallerFits(Refreshing(s, now), AwaitingRenewal(s.source.url, Refreshing(s, now).source.inflight.value.number))
  {
    var t := Refreshing(s, now);
    assert s.source.url in s.stored;
    forall c | 0 <= c < |t.callers| ensures CallerFits(t, t.callers[c]) {
      assert CallerFits(s, s.callers[c]);
    }
  }

  /** A new URL, fresh by assumption, is none a caller holds. */
  lemma ResolveFits(s: State, r: Resolved)
    requires Good(s) && Enabled(s, ResolveOk(r))
    ensures Good(Next(s, ResolveOk(r)))
  {
    var t := Next(s, ResolveOk(r));
    forall c | 0 <= c < |t.callers| ensures CallerFits(t, t.callers[c]) {
      assert CallerFits(s, s.callers[c]);
    }
  }

  lemma ForgetOrFailFits(s: State, e: Event)
    requires Good(s) && Enabled(s, e) && (e.ResolveFails? || e.ForgetFlight?)
    ensures Good(Next(s, e))
  {
    var t := Next(s, e);
    forall c | 0 <= c < |t.callers| ensures CallerFits(t, t.callers[c]) {
      assert CallerFits(s, s.callers[c]);
    }
  }

  lemma CallerMoveFits(s: State, c: nat, a: Caller)
    requires Good(s) && c < |s.callers| && CallerFits(s, a)
    ensures Good(s.(callers := s.callers[c := a]))
  {
    var t := s.(callers := s.callers[c := a]);
    forall d | 0 <= d < |t.callers| ensures CallerFits(t, t.callers[d]) {
      assert CallerFits(s, s.callers[d]);
      assert CallerFits(t, a) == CallerFits(s, a);
    }
  }

  lemma EnterFits(s: State)
    requires Good(s) && Enabled(s, Enter)
    ensures Good(Next(s, Enter))
  {
    var t := Next(s, Enter);
    forall c | 0 <= c < |t.callers| ensures CallerFits(t, t.callers[c]) {
      if c < |s.callers| { assert CallerFits(s, s.callers[c]); }
    }
  }

  lemma TakeUrlFits(s: State, c: nat, now: int)
    requires Good(s) && !s.door.Closed? && Enabled(s, TakeUrl(c, now))
    ensures Good(Next(s, TakeUrl(c, now)))
  {
    if s.source.Due(now, RENEW_MARGIN_MS) {
      RefreshFits(s, now);
      CallerMoveFits(Refreshing(s, now), c, AwaitingFirst(Refreshing(s, now).source.inflight.value.number));
    } else {
      assert s.source.url in s.stored;
      CallerMoveFits(s, c, Holding(s.source.url));
    }
  }

  lemma RenewalFits(s: State, c: nat, now: int)
    requires Good(s) && !s.door.Closed? && Enabled(s, Renewal(c, now))
    ensures Good(Next(s, Renewal(c, now)))
  {
    assert CallerFits(s, s.callers[c]);
    if s.source.url == s.callers[c].first {
      RefreshFits(s, now);
      CallerMoveFits(Refreshing(s, now), c, AwaitingRenewal(s.source.url, Refreshing(s, now).source.inflight.value.number));
    } else {
      CallerMoveFits(s, c, Retrying(s.callers[c].first, s.source.url));
    }
  }

  lemma OpeningFits(s: State, e: Event)
    requires Good(s) && Enabled(s, e) && (e.AskFirst? || e.WakeOpening?)
    ensures Good(Next(s, e))
  {
    if e.AskFirst? {
      RefreshFits(s, e.now);
    } else {
      var t := Next(s, e);
      forall c | 0 <= c < |t.callers| ensures CallerFits(t, t.callers[c]) {
        assert CallerFits(s, s.callers[c]);
      }
    }
  }

  /** No caller exists before the source is returned. */
  ghost predicate CallersAreLet(s: State) { s.callers != [] ==> s.door.Open? }

  lemma EventKeepsHistory(s: State, e: Event)
    requires Enabled(s, e)
    ensures s.source.continuation.Some? ==> Next(s, e).source.continuation.Some?
    ensures s.stored <= Next(s, e).stored
    ensures CallersAreLet(s) ==> CallersAreLet(Next(s, e))
  {
  }

  /** Every event keeps the invariant, and no event loses a continuation. */
  lemma EventKeepsGood(s: State, e: Event)
    requires Good(s) && CallersAreLet(s) && Enabled(s, e)
    ensures Good(Next(s, e)) && CallersAreLet(Next(s, e))
    ensures s.source.continuation.Some? ==> Next(s, e).source.continuation.Some?
    ensures s.stored <= Next(s, e).stored
  {
    EventKeepsHistory(s, e);
    match e
    case AskFirst(_) => OpeningFits(s, e);
    case WakeOpening(_) => OpeningFits(s, e);
    case Enter => EnterFits(s);
    case TakeUrl(c, now) => TakeUrlFits(s, c, now);
    case Renewal(c, now) => RenewalFits(s, c, now);
    case ResolveOk(r) => ResolveFits(s, r);
    case ResolveFails => ForgetOrFailFits(s, e);
    case ForgetFlight => ForgetOrFailFits(s, e);
    case _ => AnswerFits(s, e, e.c);
  }

  lemma AnswerFits(s: State, e: Event, c: nat)
    requires Good(s) && Enabled(s, e)
    requires e == WakeFirst(c) || (e.FirstAnswer? && e.c == c) || e == WakeRenewal(c) || e == SecondAnswer(c)
    ensures Good(Next(s, e)) && Next(s, e).source == s.source && Next(s, e).stored == s.stored
  {
    assert CallerFits(s, s.callers[c]);
    assert s.source.url in s.stored;
    CallerMoveFits(s, c, Next(s, e).callers[c]);
  }

  ghost predicate Run(s: State, events: seq<Event>, s': State)
    decreases |events|
  {
    if events == [] then s' == s
    else Enabled(s, events[0]) && Run(Next(s, events[0]), events[1..], s')
  }

  /** Over every interleaving of callers: at most one resolve is outstanding; every URL is superseded
      by at most one successful resolve, the one asked while it was stored; a continuation is never
      lost; a fetch ends after at most two requests and never retries with the URL it was refused. */
  lemma {:induction false} RenewalIsSafe(s: State, events: seq<Event>, s': State)
    requires Good(s) && CallersAreLet(s) && Run(s, events, s')
    ensures Good(s') && CallersAreLet(s') && s.stored <= s'.stored
    ensures s'.asked - s'.answered <= 1
    ensures forall i, j :: 0 <= i < j < |s'.superseded| ==> s'.superseded[i].0 != s'.superseded[j].0
    ensures forall i :: 0 <= i < |s'.superseded| ==> s'.superseded[i] == (s'.stored[i], s'.stored[i + 1])
    ensures s.source.continuation.Some? ==> s'.source.continuation.Some?
    ensures forall c :: 0 <= c < |s'.callers| ==>
      && (s'.callers[c].Done? ==> s'.callers[c].requests <= 2)
      && (s'.callers[c].Retrying? ==> s'.callers[c].first != s'.callers[c].second)
    decreases |events|
  {
    if events != [] {
      EventKeepsGood(s, events[0]);
      RenewalIsSafe(Next(s, events[0]), events[1..], s');
    } else {
      forall i, j | 0 <= i < j < |s'.superseded| ensures s'.superseded[i].0 != s'.superseded[j].0 {
        assert s'.superseded[i] == (s'.stored[i], s'.stored[i + 1]);
        assert s'.superseded[j] == (s'.stored[j], s'.stored[j + 1]);
      }
      assert forall c :: 0 <= c < |s'.callers| ==> CallerFits(s', s'.callers[c]);
    }
  }

  /** The closure as created, before its first refresh. */
  function Created(mediated: Url): State {
    State(Closed, Source(mediated, None, None, None), [], 0, map[], [mediated], [], 0, 0)
  }

  /** From its creation on: callers come only once it is returned, and if its first refresh succeeded
      none of them is ever given the mediated url again. */
  lemma OpenedIsGood(mediated: Url, events: seq<Event>, s: State)
    requires Run(Created(mediated), events, s)
    ensures Good(s) && CallersAreLet(s)
    ensures 0 in s.outcomes && s.outcomes[0] ==> s.source.url != mediated
  {
    RenewalIsSafe(Created(mediated), events, s);
    assert s.stored[0] == mediated;
  }

  // ───────── how long a URL is used ─────────

  /** A URL resolved with a life of so many seconds, asked at this time, has at most five minutes left. */
  ghost predicate IsNearlySpent(asked: int, expiresIn: Option<nat>, now: int) {
    match expiresIn
    case None => false
    case Some(seconds) => seconds > 0 && asked + 1000 * seconds - now <= 5 * 60 * 1000
  }

  /** The answer's URL is the current one, with the answer's continuation if it brings one, and its life
      counts from when it was asked. */
  lemma AnswerIsStored(s: State, r: Resolved)
    requires Enabled(s, ResolveOk(r))
    ensures var n := Next(s, ResolveOk(r));
            var asked := s.source.inflight.value.asked;
            && n.source.url == r.url
            && (match r.continuation case Some(c) => n.source.continuation == Some(c) case None => n.source.continuation == s.source.continuation)
            && n.source.inflight.Some? && n.source.inflight.value.number in n.outcomes && n.outcomes[n.source.inflight.value.number]
            && forall now :: n.source.Due(now, RENEW_MARGIN_MS) <==> IsNearlySpent(asked, r.expiresIn, now)
  {
  }

  /** Nothing else changes the URL, its expiry or the continuation: a refresh that fails leaves them. */
  lemma OnlyAnswersChangeTheUrl(s: State, e: Event)
    requires Enabled(s, e) && !e.ResolveOk?
    ensures var n := Next(s, e);
            n.source.url == s.source.url && n.source.expiresAt == s.source.expiresAt && n.source.continuation == s.source.continuation
  {
  }

  /** A call takes the current URL at once exactly when it is not nearly spent; else it waits for the
      one refresh in progress, asking for it if there is none. */
  lemma CallUsesOrRenews(s: State, c: nat, now: int)
    requires Enabled(s, TakeUrl(c, now))
    ensures var n := Next(s, TakeUrl(c, now));
            if s.source.Due(now, RENEW_MARGIN_MS) then
              && n.source.inflight.Some? && n.callers == s.callers[c := AwaitingFirst(n.source.inflight.value.number)]
              && (s.source.inflight.Some? ==> n.source == s.source && n.asked == s.asked)
              && (s.source.inflight.None? ==>
                    n.source.inflight.value.asked == now && n.source.Outstanding() && n.asked == s.asked + 1)
            else n == s.(callers := s.callers[c := Holding(s.source.url)])
  {
  }

  /** A refused call renews the URL it was refused only while that is the current one; else it retries
      at once with the current one. */
  lemma RefusedCallRenewsItsUrl(s: State, c: nat, now: int)
    requires Enabled(s, Renewal(c, now))
    ensures var n := Next(s, Renewal(c, now));
            if s.callers[c].first == s.source.url then
              n.source.inflight.Some? && n.callers == s.callers[c := AwaitingRenewal(s.source.url, n.source.inflight.value.number)]
            else n == s.(callers := s.callers[c := Retrying(s.callers[c].first, s.source.url)])
  {
  }

  /** A call whose refresh succeeded goes on with the current URL; one whose refresh failed ends, having
      made no request or the one that was refused. An answer that is no refusal ends it. */
  lemma CallEnds(s: State, c: nat, refused: bool)
    requires c < |s.callers|
    ensures Enabled(s, WakeFirst(c)) ==>
      Next(s, WakeFirst(c)) == s.(callers := s.callers[c := if s.outcomes[s.callers[c].flight] then Holding(s.source.url) else Done(0)])
    ensures Enabled(s, WakeRenewal(c)) ==>
      Next(s, WakeRenewal(c)) == s.(callers := s.callers[c :=
        if s.outcomes[s.callers[c].flight] then Retrying(s.callers[c].first, s.source.url) else Done(1)])
    ensures Enabled(s, FirstAnswer(c, refused)) ==>
      Next(s, FirstAnswer(c, refused)) == s.(callers := s.callers[c := if refused then Refused(s.callers[c].first) else Done(1)])
  {
  }

  /** A settled refresh is forgotten, its URL kept; the next one asks again. */
  lemma ForgottenAsksAgain(s: State, now: int)
    requires Enabled(s, ForgetFlight)
    ensures var n := Next(s, ForgetFlight);
            && n == s.(source := n.source) && n.source == s.source.(inflight := None)
            && Refreshing(n, now).asked == n.asked + 1 && Refreshing(n, now).source.Outstanding()
            && Refreshing(n, now).source.inflight.value.asked == now
  {
  }

  /** A failed resolve settles the refresh for those who await it. */
  lemma FailureIsSettled(s: State)
    requires Enabled(s, ResolveFails)
    ensures var n := Next(s, ResolveFails);
            && n.source.inflight == Some(s.source.inflight.value.(settled := Some(false)))
            && n.outcomes == s.outcomes[s.source.inflight.value.number := false] && n.callers == s.callers
  {
  }

  /** The source is returned once its first refresh succeeded, or failed in a way that may pass: only a
      terminal failure is thrown. */
  lemma OpeningEnds(s: State, terminal: bool)
    requires Enabled(s, WakeOpening(terminal))
    ensures var n := Next(s, WakeOpening(terminal));
            n == s.(door := n.door) && (n.door == Shut <==> terminal && !s.outcomes[0]) && (n.door == Open <==> !terminal || s.outcomes[0])
  {
  }

  /** A call enters behind the others; the answer to its second request ends it, whatever it is. */
  lemma CallsComeAndGo(s: State, c: nat)
    ensures Next(s.(door := Open), Enter).callers == s.callers + [Entering]
    ensures Enabled(s, SecondAnswer(c)) ==> Next(s, SecondAnswer(c)) == s.(callers := s.callers[c := Done(2)])
  {
  }
}
