/** How old a sign-in may be (routes/oidc.go, routes/authorize.go, routes/shared.go):
    max_age, on the way through a provider and on the silent one; section 3.1.2.1 of
    OpenID Connect Core 1.0. Times on ways and clocks are in milliseconds, those on
    sign-ins and max_age in seconds. */
module SignInAge {
  import opened StoreModel

  const SKEW := 30

  function Unix(now: Time): int {
    now / 1000
  }

  // max_age as it came: not a whole number, or one.
  datatype MaxAge = NotANumber | Seconds(value: int)

  // What of an authorization request this reads; prompt as its words.
  datatype Params = Params(
    request: bool, requestURI: bool, idTokenHint: bool, maxAge: Option<MaxAge>, prompt: Option<seq<string>>)

  datatype Ask = Ask(forcedLogin: bool, login: bool, none: bool, selectAccount: bool, maxAge: Option<int>)

  // What ReadSignInAsk accepts of a max_age.
  predicate AskOk(a: Ask) {
    a.maxAge.Some? ==> a.forcedLogin && 0 <= a.maxAge.value
  }

  function PromptWords(p: Params): seq<string> {
    if p.prompt.Some? then p.prompt.value else []
  }

  /** What is asked: any max_age, and prompt=login, ask for a sign-in made anew. */
  method ReadSignInAsk(p: Params) returns (ask: Option<Ask>)
    ensures ask.None? <==>
            || p.request || p.requestURI || p.idTokenHint || p.maxAge == Some(NotANumber)
            || (p.maxAge.Some? && p.maxAge.value.Seconds? && p.maxAge.value.value < 0)
            || ("none" in PromptWords(p) && |PromptWords(p)| > 1) || "consent" in PromptWords(p)
    ensures ask.Some? ==>
              var a := ask.value;
              && (a.maxAge.Some? <==> p.maxAge.Some?) && (a.maxAge.Some? ==> p.maxAge.value == Seconds(a.maxAge.value))
              && (a.forcedLogin <==> a.login || a.maxAge.Some?) && AskOk(a)
              && (a.login <==> "login" in PromptWords(p)) && (a.none <==> "none" in PromptWords(p))
              && (a.selectAccount <==> "select_account" in PromptWords(p)) && !(a.none && (a.login || a.selectAccount))
  {
    var a := Ask(false, false, false, false, None);
    if p.request || p.requestURI || p.idTokenHint {
      return None;
    }
    if p.maxAge.Some? {
      var age := p.maxAge.value;
      if age.NotANumber? || age.value < 0 {
        return None;
      }
      a := a.(maxAge := Some(age.value), forcedLogin := true);
    }
    if p.prompt.Some? {
      var values := p.prompt.value;
      if "none" in values {
        if |values| > 1 {
          return None;
        }
        a := a.(none := true);
      }
      if "consent" in values {
        return None;
      }
      if "login" in values {
        a := a.(forcedLogin := true, login := true);
      }
      a := a.(selectAccount := "select_account" in values);
    }
    return Some(a);
  }

  // Through a provider: what its flow keeps of the request.

  datatype Sent = Sent(forcedLogin: bool, maxAge: Option<int>, started: int)

  function NewFlow(a: Ask, started: int): Sent {
    Sent(a.forcedLogin, a.maxAge, started)
  }

  /** signInMoment: the provider's own time, or the moment of a forced sign-in, or
      unknown (0); None is the refusal. `now` in seconds. */
  function SignInMoment(authTime: int, flow: Sent, now: int): Option<int> {
    var at := if authTime > 0 then authTime else if flow.forcedLogin then now else 0;
    if flow.forcedLogin && authTime > 0 && authTime < flow.started - SKEW then None
    else if flow.maxAge.Some? && at > 0 && now - at - SKEW > flow.maxAge.value then None
    else Some(at)
  }

  // How a sign-in was proved, for a request: by card; or at a provider, its flow begun
  // at `started`, with the provider's own time for it (0: it does not say).
  datatype Proof = ByCard(ask: Ask) | AtAProvider(ask: Ask, started: int, stated: int)

  // The moment kept of it.
  function Moment(p: Proof, now: Time): Option<int> {
    match p
    case ByCard(_) => Some(Unix(now))
    case AtAProvider(ask, started, stated) => SignInMoment(stated, NewFlow(ask, started), Unix(now))
  }

  // How a sign-in is proved: the request was one accepted, and its flow began before
  // the sign-in was complete.
  predicate ProofOk(p: Proof, now: Time) {
    AskOk(p.ask) && (p.AtAProvider? ==> p.started <= Unix(now))
  }

  /** For every request, a sign-in at a provider is refused exactly when the provider
      says when it was, and that is before a request that forced it, or longer ago than
      the max_age asked for, each with the leeway. The moment kept is the provider's
      where it says one; else the completion's, of a sign-in that was forced; else
      unknown. */
  lemma MomentExactly(ask: Ask, started: int, stated: int, now: int)
    requires AskOk(ask)
    ensures var kept := SignInMoment(stated, NewFlow(ask, started), now);
            && (kept.None? <==>
                  && 0 < stated
                  && ((ask.forcedLogin && stated + 30 < started)
                      || (ask.maxAge.Some? && ask.maxAge.value + 30 < now - stated)))
            && (kept.Some? ==>
                  && (0 < stated ==> kept.value == stated)
                  && (stated <= 0 && ask.forcedLogin ==> kept.value == now)
                  && (stated <= 0 && !ask.forcedLogin ==> kept.value == 0))
  {}

  // Silently

  datatype SilentAnswer = Answered(way: Way) | NotAsked | TooOld | NoWay | NoIdentity | NoRegister | NoMembership

  // What the client and its request allow, and what the register answers of the
  // person: none, a failure, or how many memberships.
  datatype SilentAsk = SilentAsk(
    singleSignOn: bool, ask: Ask, offered: seq<string>, named: seq<string>,
    wantsSerial: bool, hasSerial: bool, membership: Option<Option<nat>>)

  // The way still stands, and is one that may answer.
  predicate MayAnswer(w: Way, q: SilentAsk, now: Time) {
    now < w.ends && w.loginMethod in q.offered && (q.named != [] ==> w.loginMethod in q.named)
  }

  predicate FreshEnough(w: Way, q: SilentAsk, now: Time) {
    q.ask.maxAge.Some? ==> w.authTime != 0 && Unix(now) - w.authTime <= q.ask.maxAge.value
  }

  predicate Fits(w: Way, q: SilentAsk, now: Time) {
    MayAnswer(w, q, now) && FreshEnough(w, q, now)
  }

  predicate AsksForNone(q: SilentAsk) {
    !q.singleSignOn || q.ask.login || q.ask.selectAccount || q.ask.maxAge == Some(0)
  }

  predicate MostRecent(ways: seq<Way>, q: SilentAsk, now: Time, w: Way) {
    exists i :: 0 <= i < |ways| && ways[i] == w && Fits(w, q, now)
                && forall j :: i < j < |ways| ==> !Fits(ways[j], q, now)
  }

  // The person has the identity the client needs, and a membership where it needs one.
  predicate MayBeAnswered(q: SilentAsk) {
    && (q.wantsSerial ==> q.hasSerial)
    && (q.membership.Some? ==> q.membership.value.Some? && 0 < q.membership.value.value)
  }

  // The request is answered with no page, from this way.
  predicate Answers(ways: seq<Way>, q: SilentAsk, now: Time, w: Way) {
    !AsksForNone(q) && MostRecent(ways, q, now, w) && MayBeAnswered(q)
  }

  /** sharedWay: the most recent way that fits answers; when none does, the age is
      said to be why exactly when a way fits but for it. */
  method SharedWay(ways: seq<Way>, q: SilentAsk, now: Time) returns (answer: SilentAnswer)
    ensures answer.NotAsked? <==>
            !q.singleSignOn || q.ask.login || q.ask.selectAccount || q.ask.maxAge == Some(0)
    ensures !answer.NotAsked? ==>
              && (answer.NoWay? || answer.TooOld? <==> forall i :: 0 <= i < |ways| ==> !Fits(ways[i], q, now))
              && (answer.NoWay? <==> forall w :: w in ways ==>
                                       || w.ends <= now || w.loginMethod !in q.offered
                                       || (q.named != [] && w.loginMethod !in q.named))
              && (answer.TooOld? ==> q.ask.maxAge.Some? && forall w :: w in ways ==>
                                       || w.ends <= now || w.loginMethod !in q.offered
                                       || (q.named != [] && w.loginMethod !in q.named)
                                       || w.authTime == 0 || now / 1000 > w.authTime + q.ask.maxAge.value)
              && (answer.NoIdentity? ==> q.wantsSerial && !q.hasSerial)
              && (answer.NoRegister? ==> q.membership == Some(None))
              && (answer.NoMembership? ==> q.membership == Some(Some(0)))
    ensures answer.Answered? ==> Answers(ways, q, now, answer.way)
    ensures !answer.Answered? ==> forall w :: !Answers(ways, q, now, w)
  {
    if !q.singleSignOn || q.ask.login || q.ask.selectAccount || (q.ask.maxAge.Some? && q.ask.maxAge.value == 0) {
      return NotAsked;
    }
    var tooOld := false;
    var way: Option<Way> := None;
    var i := |ways| - 1;
    while 0 <= i
      invariant -1 <= i < |ways|
      invariant way.None? && forall j :: i < j < |ways| ==> !Fits(ways[j], q, now)
      invariant tooOld <==> exists j :: i < j < |ways| && MayAnswer(ways[j], q, now)
    {
      var w := ways[i];
      if w.ends <= now || w.loginMethod !in q.offered || (|q.named| > 0 && w.loginMethod !in q.named) {
        i := i - 1;
        continue;
      }
      if q.ask.maxAge.Some? && (w.authTime == 0 || Unix(now) - w.authTime > q.ask.maxAge.value) {
        tooOld := true;
        i := i - 1;
        continue;
      }
      way := Some(w);
      assert MostRecent(ways, q, now, w);
      break;
    }
    if way.None? {
      return if tooOld then TooOld else NoWay;
    }
    if q.wantsSerial && !q.hasSerial {
      return NoIdentity;
    }
    if q.membership.Some? {
      if q.membership.value.None? {
        return NoRegister;
      }
      if q.membership.value.value == 0 {
        return NoMembership;
      }
    }
    return Answered(way.value);
  }

  /** A silent answer to a request with max_age rests on a sign-in of a known time, no
      older than that. */
  lemma MaxAgeHoldsSilently(ways: seq<Way>, q: SilentAsk, now: Time, way: Way)
    requires MostRecent(ways, q, now, way) && q.ask.maxAge.Some?
    ensures way in ways && way.authTime != 0 && Unix(now) - way.authTime <= q.ask.maxAge.value && now < way.ends
    ensures forall i :: 0 <= i < |ways| && Fits(ways[i], q, now) ==>
                          ways[i] == way || exists j :: i < j < |ways| && ways[j] == way
  {
    var i :| 0 <= i < |ways| && ways[i] == way && Fits(way, q, now)
             && forall j :: i < j < |ways| ==> !Fits(ways[j], q, now);
  }

  // What an app session rests on: a sign-in just proved, or a shared session's way
  // reused for a request; and when.
  datatype Basis = Proved(proof: Proof, at: Time) | Reused(request: SilentAsk, ways: seq<Way>, at: Time)

  predicate RestsOn(b: Basis, way: Way) {
    match b
    case Proved(proof, at) =>
      ProofOk(proof, at) && Moment(proof, at) == Some(way.authTime) && way.signedIn == at
    case Reused(request, ways, at) => Answers(ways, request, at, way)
  }

  // The max_age asked for, and the leeway a provider's clock is given.
  function MaxAgeOf(b: Basis): Option<int> {
    match b
    case Proved(proof, _) => proof.ask.maxAge
    case Reused(request, _, _) => request.ask.maxAge
  }

  function Leeway(b: Basis): int {
    if b.Proved? && b.proof.AtAProvider? then SKEW else 0
  }

  // A sign-in that was asked to be made anew, at a provider.
  predicate ForcedAtAProvider(b: Basis) {
    b.Proved? && b.proof.AtAProvider? && b.proof.ask.forcedLogin
  }

  /** Whatever a session rests on, a max_age asked for is met by a known time; and one
      asked to be made anew at a provider is of a known time, no earlier than that was
      asked for. */
  lemma MaxAgeIsMet(b: Basis, way: Way)
    requires RestsOn(b, way) && 1000 <= b.at
    ensures MaxAgeOf(b).Some? ==> way.authTime != 0 && Unix(b.at) - way.authTime <= MaxAgeOf(b).value + Leeway(b)
    ensures ForcedAtAProvider(b) ==> way.authTime != 0 && b.proof.started - 30 <= way.authTime
  {
    if b.Reused? {
      if b.request.ask.maxAge.Some? { MaxAgeHoldsSilently(b.ways, b.request, b.at, way); }
    } else if b.proof.AtAProvider? {
      MomentExactly(b.proof.ask, b.proof.started, b.proof.stated, Unix(b.at));
    }
  }

  /** And a sign-in just proved keeps its moment: by card, when it was complete; at a
      provider, when the provider says, or else when it was complete if it was forced,
      or else none. */
  lemma ProvedKeepsItsMoment(proof: Proof, at: Time, way: Way)
    requires RestsOn(Proved(proof, at), way)
    ensures way.signedIn == at
    ensures way.authTime == if proof.ByCard? || (proof.stated <= 0 && proof.ask.forcedLogin) then at / 1000
                            else if 0 < proof.stated then proof.stated else 0
  {
    if proof.AtAProvider? { MomentExactly(proof.ask, proof.started, proof.stated, at / 1000); }
  }
}
