/** Refresh-token rotation: logins start a family of tokens, each rotation revokes one token and
    issues the next of its family, and the reuse of a revoked token revokes the family (the
    scheme of section 4.14.2 of RFC 9700). */
module RefreshTokens {

  const FAMILY_MAX_REVOKE: nat := 100
  const TTL: int := 30 * 24 * 60 * 60

  /** Times are in seconds. */
  datatype Token = Token(userId: nat, family: string, revoked: bool, expires: int)

  /** The stored tokens by raw token: the code stores them by hash, which is taken to be
      collision-free. */
  type Tokens = map<string, Token>

  datatype Response = Issued(raw: string, userId: nat) | Invalid | Expired | Reused | UserGone

  // ---- Specification ------------------------------------------------------------------------------------

  function Unrevoked(s: Tokens, family: string): set<string> {
    set r | r in s && s[r].family == family && !s[r].revoked
  }

  function Revoke(s: Tokens, rows: set<string>): Tokens {
    map r | r in s :: if r in rows then s[r].(revoked := true) else s[r]
  }

  /** What the revocation query may answer: any rows of the family, as many as the limit allows. */
  ghost predicate LimitedAnswer(s: Tokens, family: string, rows: set<string>) {
    && rows <= Unrevoked(s, family)
    && |rows| == if |Unrevoked(s, family)| <= FAMILY_MAX_REVOKE then |Unrevoked(s, family)| else FAMILY_MAX_REVOKE
  }

  function Stored(s: Tokens, raw: string, user: nat, family: string, now: int): Tokens {
    s[raw := Token(user, family, false, now + TTL)]
  }

  /** A rotation of `raw` that issues `next`; `active` says whether the owner is an active user,
      `rows` are the rows the revocation query answers with. */
  datatype Rotation = Rotation(raw: string, next: string, active: bool, now: int, rows: set<string>)

  function Answer(s: Tokens, q: Rotation): Response {
    if q.raw !in s then Invalid
    else if s[q.raw].expires < q.now then Expired
    else if s[q.raw].revoked then Reused
    else if !q.active then UserGone
    else Issued(q.next, s[q.raw].userId)
  }

  function Rotated(s: Tokens, q: Rotation): Tokens {
    match Answer(s, q)
    case Reused => Revoke(s, q.rows)
    case Issued(_, user) => Stored(Revoke(s, {q.raw}), q.next, user, s[q.raw].family, q.now)
    case _ => s
  }

  /** The rotation's database answers are possible: the new raw token is new, and a revocation
      query returns rows of the family up to the limit. */
  ghost predicate Possible(s: Tokens, q: Rotation) {
    && (Answer(s, q).Issued? ==> q.next !in s)
    && (Answer(s, q).Reused? ==> LimitedAnswer(s, s[q.raw].family, q.rows))
  }

  ghost predicate FamilyUsed(s: Tokens, family: string) { exists r :: r in s && s[r].family == family }

  // ---- The store ----------------------------------------------------------------------------------------

  class TokenStore {
    var tokens: Tokens

    constructor ()
      ensures tokens == map[]
    {
      tokens := map[];
    }

    method StoreRefresh(raw: string, user: nat, family: string, now: int)
      modifies this
      ensures tokens == Stored(old(tokens), raw, user, family, now)
    {
      tokens := tokens[raw := Token(user, family, false, now + TTL)];
    }

    /** A login or a registration. */
    method CreateTokenPair(user: nat, raw: string, family: string, now: int) returns (r: Response)
      modifies this
      ensures r == Issued(raw, user) && tokens == Stored(old(tokens), raw, user, family, now)
    {
      StoreRefresh(raw, user, family, now);
      r := Issued(raw, user);
    }

    method RotateRefreshToken(q: Rotation, familyResult: seq<string>) returns (r: Response)
      requires q.rows == set x | x in familyResult
      requires Answer(tokens, q).Reused? ==> q.rows <= tokens.Keys
      modifies this
      ensures r == Answer(old(tokens), q) && tokens == Rotated(old(tokens), q)
    {
      if q.raw !in tokens { return Invalid; }
      var record := tokens[q.raw];
      if record.expires < q.now { return Expired; }
      if record.revoked {
        for i := 0 to |familyResult|
          invariant tokens == Revoke(old(tokens), set x | x in familyResult[..i])
        {
          assert familyResult[..i + 1] == familyResult[..i] + [familyResult[i]];
          var t := familyResult[i];
          tokens := tokens[t := tokens[t].(revoked := true)];
        }
        assert familyResult[..|familyResult|] == familyResult;
        return Reused;
      }
      if !q.active { return UserGone; }
      tokens := tokens[q.raw := record.(revoked := true)];
      StoreRefresh(q.next, record.userId, record.family, q.now);
      r := Issued(q.next, record.userId);
    }

    /** The route: its session commits when it returns and rolls back when it raises. */
    method Refresh(q: Rotation, familyResult: seq<string>) returns (r: Response)
      requires q.rows == set x | x in familyResult
      requires Answer(tokens, q).Reused? ==> q.rows <= tokens.Keys
      modifies this
      ensures r == Answer(old(tokens), q)
      ensures tokens == if r.Issued? then Rotated(old(tokens), q) else old(tokens)
    {
      var committed := tokens;
      r := RotateRefreshToken(q, familyResult);
      if !r.Issued? { tokens := committed; }
    }
  }

  // ---- Runs -----------------------------------------------------------------------------------------------

  /** A login of a user, or a rotation whose writes are kept or rolled back when it raises. */
  datatype Op = Login(user: nat, raw: string, family: string, now: int) | Rotate(q: Rotation, kept: bool)

  function Apply(s: Tokens, op: Op): Tokens {
    match op
    case Login(user, raw, family, now) => Stored(s, raw, user, family, now)
    case Rotate(q, kept) => if kept || Answer(s, q).Issued? then Rotated(s, q) else s
  }

  /** Raw tokens and family ids are random and do not repeat. */
  ghost predicate Enabled(s: Tokens, op: Op) {
    match op
    case Login(_, raw, family, _) => raw !in s && !FamilyUsed(s, family)
    case Rotate(q, _) => Possible(s, q)
  }

  function Run(s: Tokens, ops: seq<Op>): Tokens
    decreases |ops|
  {
    if ops == [] then s else Run(Apply(s, ops[0]), ops[1..])
  }

  ghost predicate Legal(s: Tokens, ops: seq<Op>)
    decreases |ops|
  {
    ops == [] || (Enabled(s, ops[0]) && Legal(Apply(s, ops[0]), ops[1..]))
  }

  // ---- When a token is accepted -----------------------------------------------------------------------------

  /** A rotation succeeds exactly for a stored token that is unrevoked and not past its expiry and
      whose owner is active, and then for that owner; and each refusal has its own reason. */
  lemma {:induction false} AnsweredExactlyWhen(s: Tokens, q: Rotation)
    ensures var known := q.raw in s;
            && (Answer(s, q).Issued? <==> known && q.now <= s[q.raw].expires && !s[q.raw].revoked && q.active)
            && (Answer(s, q).Issued? ==> Answer(s, q) == Issued(q.next, s[q.raw].userId))
            && (Answer(s, q).Invalid? <==> !known)
            && (Answer(s, q).Expired? <==> known && s[q.raw].expires < q.now)
            && (Answer(s, q).Reused? <==> known && q.now <= s[q.raw].expires && s[q.raw].revoked)
            && (Answer(s, q).UserGone? <==> known && q.now <= s[q.raw].expires && !s[q.raw].revoked && !q.active)
  {
  }

  const MONTH: int := 2592000

  /** What a rotation whose writes are kept leaves: an accepted token is revoked and has one
      successor of its family and owner, valid for thirty days; a reuse revokes the rows the query
      answered with; every other token and every other answer changes nothing. */
  lemma {:induction false} RotationLeaves(s: Tokens, q: Rotation)
    requires Possible(s, q)
    ensures var u, a := Rotated(s, q), Answer(s, q);
            && s.Keys <= u.Keys && u.Keys <= s.Keys + {q.next}
            && (a.Issued? ==> && q.raw in u && q.next in u && u[q.raw] == s[q.raw].(revoked := true)
                              && u[q.next] == Token(s[q.raw].userId, s[q.raw].family, false, q.now + MONTH)
                              && forall r :: r in s && r != q.raw ==> u[r] == s[r])
            && (a.Reused? ==> u.Keys == s.Keys && forall r :: r in s ==> u[r] == if r in q.rows then s[r].(revoked := true) else s[r])
            && (!a.Issued? && !a.Reused? ==> u == s)
  {
  }

  /** A login adds its token, valid for thirty days, and touches no other. */
  lemma {:induction false} LoginLeaves(s: Tokens, user: nat, raw: string, family: string, now: int)
    ensures var u := Apply(s, Login(user, raw, family, now));
            && u.Keys == s.Keys + {raw} && u[raw] == Token(user, family, false, now + MONTH)
            && forall r :: r in s && r != raw ==> u[r] == s[r]
  {
  }

  /** The token an operation issues, if it does. */
  ghost predicate Issues(s: Tokens, op: Op, raw: string, now: int) {
    match op
    case Login(_, x, _, t) => x == raw && t == now
    case Rotate(q, _) => Answer(s, q).Issued? && q.next == raw && q.now == now
  }

  /** Over any run: a token is never accepted later than thirty days after it was issued. */
  lemma {:induction false} NotAcceptedAfterExpiry(ops: seq<Op>, op: Op, now: int, later: seq<Op>, p: Rotation)
    requires Legal(map[], ops + [op]) && Issues(Run(map[], ops), op, p.raw, now)
    requires Legal(Run(map[], ops + [op]), later) && p.now > now + MONTH
    ensures Answer(Run(Run(map[], ops + [op]), later), p) == Expired
  {
    var s := Run(map[], ops);
    RunAppend(map[], ops, op);
    assert p.raw in Apply(s, op) && Apply(s, op)[p.raw].expires == now + MONTH;
    FamilyIsFixed(Apply(s, op), later, p.raw);
  }

  /** Until then it is accepted from an active owner unless it was revoked, so that a login's token is
      good for the whole month if nobody uses it. */
  lemma {:induction false} UnusedTokenIsAccepted(ops: seq<Op>, user: nat, raw: string, family: string, now: int, p: Rotation)
    requires Legal(map[], ops + [Login(user, raw, family, now)])
    requires p.raw == raw && p.active && now <= p.now <= now + MONTH
    ensures Answer(Run(map[], ops + [Login(user, raw, family, now)]), p) == Issued(p.next, user)
  {
    RunAppend(map[], ops, Login(user, raw, family, now));
  }

  // ---- At most one live token per family --------------------------------------------------------------------

  ghost predicate OneLive(s: Tokens) {
    forall x, y :: x in s && y in s && s[x].family == s[y].family && !s[x].revoked && !s[y].revoked ==> x == y
  }

  lemma {:induction false} StepKeepsOneLive(s: Tokens, op: Op)
    requires OneLive(s) && Enabled(s, op)
    ensures OneLive(Apply(s, op))
  {
    if op.Rotate? && Answer(s, op.q).Issued? {
      var u := Apply(s, op);
      forall x | x in u && u[x].family == s[op.q.raw].family && !u[x].revoked ensures x == op.q.next {
      }
    }
  }

  /** Over any run of logins and rotations, a family never has two unrevoked tokens. */
  lemma {:induction false} OneLivePerFamily(s: Tokens, ops: seq<Op>)
    requires OneLive(s) && Legal(s, ops)
    ensures OneLive(Run(s, ops))
    decreases |ops|
  {
    if ops != [] {
      StepKeepsOneLive(s, ops[0]);
      OneLivePerFamily(Apply(s, ops[0]), ops[1..]);
    }
  }

  lemma {:induction false} AtMostOne<T>(s: set<T>, x: T)
    requires x in s && forall y :: y in s ==> y == x
    ensures |s| == 1
  {
    assert s == {x};
  }

  /** Therefore the limit never leaves a token unrevoked: whatever rows the bounded query
      returns, it revokes what an unbounded one would. */
  lemma {:induction false} BoundedIsUnbounded(ops: seq<Op>, family: string, rows: set<string>)
    requires Legal(map[], ops) && LimitedAnswer(Run(map[], ops), family, rows)
    ensures rows == Unrevoked(Run(map[], ops), family)
    ensures Unrevoked(Revoke(Run(map[], ops), rows), family) == {}
  {
    var s := Run(map[], ops);
    OneLivePerFamily(map[], ops);
    var all := Unrevoked(s, family);
    if x :| x in all {
      AtMostOne(all, x);
      assert all == {x} && |rows| == 1;
      var y :| y in rows;
      assert y == x;
    } else {
      assert all == {};
    }
  }

  // ---- After a reuse ------------------------------------------------------------------------------------------

  ghost predicate FamilyDead(s: Tokens, family: string) {
    FamilyUsed(s, family) && forall r :: r in s && s[r].family == family ==> s[r].revoked
  }

  lemma {:induction false} StepKeepsDead(s: Tokens, op: Op, family: string)
    requires FamilyDead(s, family) && Enabled(s, op)
    ensures FamilyDead(Apply(s, op), family)
  {
    var r :| r in s && s[r].family == family;
    var u := Apply(s, op);
    assert r in u && u[r].family == family;
  }

  /** A dead family's tokens are never accepted again. */
  lemma {:induction false} DeadStaysDead(s: Tokens, ops: seq<Op>, family: string)
    requires FamilyDead(s, family) && Legal(s, ops)
    ensures FamilyDead(Run(s, ops), family)
    decreases |ops|
  {
    if ops != [] {
      StepKeepsDead(s, ops[0], family);
      DeadStaysDead(Apply(s, ops[0]), ops[1..], family);
    }
  }

  /** Whether a detected reuse ends the family: it does when its writes are kept; when they are
      rolled back it does not, unless the family was already dead. */
  lemma {:induction false} ReuseKillsExactlyWhenKept(ops: seq<Op>, q: Rotation, kept: bool)
    requires Legal(map[], ops + [Rotate(q, kept)])
    requires Answer(Run(map[], ops), q).Reused?
    ensures var s := Run(map[], ops);
            FamilyDead(Apply(s, Rotate(q, kept)), s[q.raw].family) <==> kept || FamilyDead(s, s[q.raw].family)
  {
    var s := Run(map[], ops);
    RunAppend(map[], ops, Rotate(q, kept));
    if kept {
      BoundedIsUnbounded(ops, s[q.raw].family, q.rows);
      var u := Revoke(s, q.rows);
      assert q.raw in u;
      forall r | r in u && u[r].family == s[q.raw].family ensures u[r].revoked {
        assert r !in Unrevoked(u, s[q.raw].family);
      }
    }
  }

  lemma {:induction false} RunAppend(s: Tokens, ops: seq<Op>, op: Op)
    requires Legal(s, ops + [op])
    ensures Legal(s, ops) && Enabled(Run(s, ops), op) && Run(s, ops + [op]) == Apply(Run(s, ops), op)
    decreases |ops|
  {
    if ops == [] {
      assert ops + [op] == [op] && [op][1..] == [];
    } else {
      assert (ops + [op])[1..] == ops[1..] + [op];
      RunAppend(Apply(s, ops[0]), ops[1..], op);
    }
  }

  /** After one kept reuse of a revoked token, no token of its family is ever accepted again:
      in whatever happens next, a rotation of any of them is refused. */
  lemma {:induction false} NoTokenAfterReuse(ops: seq<Op>, q: Rotation, later: seq<Op>, p: Rotation)
    requires Legal(map[], ops + [Rotate(q, true)]) && Answer(Run(map[], ops), q).Reused?
    requires Legal(Run(map[], ops + [Rotate(q, true)]), later)
    requires var u := Run(Run(map[], ops + [Rotate(q, true)]), later);
             p.raw in u && q.raw in u && u[p.raw].family == u[q.raw].family
    ensures !Answer(Run(Run(map[], ops + [Rotate(q, true)]), later), p).Issued?
  {
    var s := Run(map[], ops);
    RunAppend(map[], ops, Rotate(q, true));
    ReuseKillsExactlyWhenKept(ops, q, true);
    var v := Run(map[], ops + [Rotate(q, true)]);
    DeadStaysDead(v, later, s[q.raw].family);
    FamilyIsFixed(v, later, q.raw);
  }

  /** A token keeps its family, its owner and its expiry, and once revoked it stays revoked. */
  lemma {:induction false} FamilyIsFixed(s: Tokens, ops: seq<Op>, r: string)
    requires r in s && Legal(s, ops)
    ensures r in Run(s, ops) && Run(s, ops)[r].(revoked := true) == s[r].(revoked := true)
    ensures s[r].revoked ==> Run(s, ops)[r].revoked
    decreases |ops|
  {
    if ops != [] { FamilyIsFixed(Apply(s, ops[0]), ops[1..], r); }
  }

  /** Over any run a token buys at most one successor, kept or not. */
  lemma {:induction false} AcceptedOnce(s: Tokens, q: Rotation, kept: bool, later: seq<Op>, p: Rotation)
    requires Enabled(s, Rotate(q, kept)) && Answer(s, q).Issued? && p.raw == q.raw
    requires Legal(Apply(s, Rotate(q, kept)), later)
    ensures !Answer(Run(Apply(s, Rotate(q, kept)), later), p).Issued?
  {
    FamilyIsFixed(Apply(s, Rotate(q, kept)), later, q.raw);
  }

  // ---- What the route does with it ------------------------------------------------------------------------------

  /** A login with token a at t0 and its rotation to b at t1. */
  function LoginAndRotate(user: nat, family: string, a: string, b: string, t0: int, t1: int): seq<Op> {
    [Login(user, a, family, t0), Rotate(Rotation(a, b, true, t1, {}), true)]
  }

  function AfterRotation(user: nat, family: string, a: string, b: string, t0: int, t1: int): Tokens {
    map[a := Token(user, family, true, t0 + TTL), b := Token(user, family, false, t1 + TTL)]
  }

  lemma {:induction false} LoginAndRotateRuns(user: nat, family: string, a: string, b: string, t0: int, t1: int)
    requires a != b && t0 <= t1 <= t0 + TTL
    ensures var ops := LoginAndRotate(user, family, a, b, t0, t1);
            Legal(map[], ops) && Run(map[], ops) == AfterRotation(user, family, a, b, t0, t1)
  {
    var ops := LoginAndRotate(user, family, a, b, t0, t1);
    var s := map[a := Token(user, family, false, t0 + TTL)];
    assert Enabled(map[], ops[0]) && Apply(map[], ops[0]) == s;
    assert Revoke(s, {a}) == map[a := Token(user, family, true, t0 + TTL)];
    var u := AfterRotation(user, family, a, b, t0, t1);
    assert Enabled(s, ops[1]) && Apply(s, ops[1]) == u;
    assert ops[1..] == [ops[1]] && [ops[1]][1..] == [];
    assert Run(u, []) == u && Legal(u, []);
    assert Run(s, [ops[1]]) == u && Legal(s, [ops[1]]);
  }

  lemma {:induction false} OneMore(s: Tokens, ops: seq<Op>, op: Op)
    requires Legal(s, ops) && Enabled(Run(s, ops), op)
    ensures Legal(s, ops + [op]) && Run(s, ops + [op]) == Apply(Run(s, ops), op)
    decreases |ops|
  {
    if ops == [] {
      assert ops + [op] == [op] && [op][1..] == [];
    } else {
      assert (ops + [op])[1..] == ops[1..] + [op];
      OneMore(Apply(s, ops[0]), ops[1..], op);
    }
  }

  /** Login, rotation, reuse of the old token: the reuse is detected. In the route its revocation is
      rolled back, and the family's live token is accepted afterwards; were it kept, that token
      would be refused as reused. */
  lemma {:induction false} RolledBackReuseSpares(user: nat, family: string, a: string, b: string, c: string,
                                                 t0: int, t1: int, t2: int, t3: int, kept: bool)
    requires a != b && a != c && b != c && t0 <= t1 <= t2 <= t0 + TTL && t2 <= t3 <= t1 + TTL
    ensures var ops := LoginAndRotate(user, family, a, b, t0, t1);
            var reuse := Rotation(a, c, true, t2, {b});
            && Legal(map[], ops + [Rotate(reuse, kept)]) && Answer(Run(map[], ops), reuse) == Reused
            && Answer(Run(map[], ops + [Rotate(reuse, kept)]), Rotation(b, c, true, t3, {}))
               == if kept then Reused else Issued(c, user)
  {
    var ops := LoginAndRotate(user, family, a, b, t0, t1);
    var reuse := Rotation(a, c, true, t2, {b});
    var s := AfterRotation(user, family, a, b, t0, t1);
    LoginAndRotateRuns(user, family, a, b, t0, t1);
    assert Unrevoked(s, family) == {b};
    OneMore(map[], ops, Rotate(reuse, kept));
  }

  /** Reusing the old token after it has expired is answered as expired and revokes nothing, even if
      it were kept: the live token is still accepted. */
  lemma {:induction false} ExpiredReuseIsSilent(user: nat, family: string, a: string, b: string, c: string,
                                                t0: int, t1: int, t2: int, t3: int)
    requires a != b && a != c && b != c && t0 <= t1 <= t0 + TTL < t2 <= t3 <= t1 + TTL
    ensures var ops := LoginAndRotate(user, family, a, b, t0, t1);
            var reuse := Rotation(a, c, true, t2, {});
            && Legal(map[], ops + [Rotate(reuse, true)]) && Answer(Run(map[], ops), reuse) == Expired
            && Answer(Run(map[], ops + [Rotate(reuse, true)]), Rotation(b, c, true, t3, {})) == Issued(c, user)
  {
    var ops := LoginAndRotate(user, family, a, b, t0, t1);
    LoginAndRotateRuns(user, family, a, b, t0, t1);
    OneMore(map[], ops, Rotate(Rotation(a, c, true, t2, {}), true));
  }
}
