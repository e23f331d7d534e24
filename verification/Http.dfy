/** The HTTP front: every request tries the connection lock, and any number of requests interleave. */
module Http {
  import opened Common

  /** Query parameters, absent or as given. */
  datatype Query = Query(host: Option<Text>, port: Option<Text>, uid: Option<Text>)

  datatype Page = AlreadyConnecting | AlreadyIngame | MissingParameters | UnableToConnect | Connected

  // ---------- numbers in a query ----------

  predicate IsSpace(b: Byte) {
    9 <= b <= 13 || b == 32
  }

  predicate IsDigit(b: Byte) {
    48 <= b <= 57
  }

  function SkipSpaces(t: Text): Text {
    if t != [] && IsSpace(t[0]) then SkipSpaces(t[1..]) else t
  }

  function Digits(t: Text): (r: Text)
    ensures r <= t && forall i :: 0 <= i < |r| ==> IsDigit(r[i])
  {
    if t != [] && IsDigit(t[0]) then [t[0]] + Digits(t[1..]) else []
  }

  function Decimal(digits: Text): nat
    requires forall i :: 0 <= i < |digits| ==> IsDigit(digits[i])
  {
    if digits == [] then 0
    else
      assert IsDigit(digits[|digits| - 1]);
      10 * Decimal(digits[..|digits| - 1]) + (digits[|digits| - 1] - 48)
  }

  /** `std::stoi`: leading space, a sign, digits, anything behind them. `None` is an exception: no
      digits, or a number that no `int` holds. */
  function Stoi(t: Text): Option<I32> {
    var u := SkipSpaces(t);
    var negative := u != [] && u[0] == 45;
    var digits := Digits(if u != [] && (u[0] == 45 || u[0] == 43) then u[1..] else u);
    var n: int := (if negative then -1 else 1) * Decimal(digits);
    if digits == [] || n < -0x8000_0000 || n > 0x7fff_ffff then None else Some(n)
  }

  /** The cast to `uint16_t`: the value in its range that differs by a multiple of 65536. */
  function ToU16(i: I32): (r: U16)
    ensures exists k: int :: r == i + k * 0x1_0000
  {
    assert i % 0x1_0000 == i + -(i / 0x1_0000) * 0x1_0000;
    i % 0x1_0000
  }

  /** A number written in decimal. */
  function Show(n: nat): Text {
    if n < 10 then [48 + n] else Show(n / 10) + [48 + n % 10]
  }

  lemma {:induction false} ShowIsDecimal(n: nat)
    ensures Show(n) != [] && forall i :: 0 <= i < |Show(n)| ==> IsDigit(Show(n)[i])
    ensures Decimal(Show(n)) == n
  {
    var t := Show(n);
    if n < 10 {
      assert t[..0] == [];
    } else {
      ShowIsDecimal(n / 10);
      assert t[..|t| - 1] == Show(n / 10);
    }
  }

  lemma {:induction false} DigitsOfDigits(t: Text, behind: Text)
    requires forall i :: 0 <= i < |t| ==> IsDigit(t[i])
    requires behind == [] || !IsDigit(behind[0])
    ensures Digits(t + behind) == t
  {
    if t == [] {
      assert t + behind == behind;
    } else {
      assert (t + behind)[1..] == t[1..] + behind;
      DigitsOfDigits(t[1..], behind);
    }
  }

  /** Text that starts with a digit has neither space nor sign in front. */
  lemma NothingInFront(t: Text)
    requires t != [] && IsDigit(t[0])
    ensures SkipSpaces(t) == t && t[0] != 45 && t[0] != 43
  {
  }

  lemma {:induction false} SpacesSkipped(spaces: Text, rest: Text)
    requires forall i :: 0 <= i < |spaces| ==> IsSpace(spaces[i])
    requires rest == [] || !IsSpace(rest[0])
    ensures SkipSpaces(spaces + rest) == rest
  {
    if spaces == [] {
      assert spaces + rest == rest;
    } else {
      assert (spaces + rest)[1..] == spaces[1..] + rest;
      SpacesSkipped(spaces[1..], rest);
    }
  }

  const PLUS: Text := [43]
  const MINUS: Text := [45]

  /** What `std::stoi` makes of a text, told by its parts: leading space, at most one sign, digits, and
      anything that does not go on with a digit. Without a digit, or beyond the range of `int`, it
      throws. Every text has such parts; without digits they must be as long as they can be. */
  lemma StoiExact(spaces: Text, sign: Text, digits: Text, behind: Text)
    requires forall i :: 0 <= i < |spaces| ==> IsSpace(spaces[i])
    requires sign in {[], PLUS, MINUS}
    requires forall i :: 0 <= i < |digits| ==> IsDigit(digits[i])
    requires behind == [] || !IsDigit(behind[0])
    requires digits == sign == [] && behind != [] ==> !IsSpace(behind[0]) && behind[0] != 43 && behind[0] != 45
    ensures var n := (if sign == MINUS then -1 else 1) * Decimal(digits);
            Stoi(spaces + sign + digits + behind) ==
              if digits != [] && -0x8000_0000 <= n <= 0x7fff_ffff then Some(n) else None
  {
    hide Decimal, SkipSpaces, Digits, Stoi;
    var number := digits + behind;
    var rest := sign + number;
    assert spaces + sign + digits + behind == spaces + rest;
    assert rest != [] ==> rest[0] == if sign != [] then sign[0] else if digits != [] then digits[0] else behind[0];
    SpacesSkipped(spaces, rest);
    SignRead(spaces + rest, sign, digits, behind);
  }

  lemma SignRead(t: Text, sign: Text, digits: Text, behind: Text)
    requires SkipSpaces(t) == sign + (digits + behind)
    requires sign in {[], PLUS, MINUS}
    requires forall i :: 0 <= i < |digits| ==> IsDigit(digits[i])
    requires behind == [] || !IsDigit(behind[0])
    requires digits == sign == [] && behind != [] ==> behind[0] != 43 && behind[0] != 45
    ensures var n := (if sign == MINUS then -1 else 1) * Decimal(digits);
            Stoi(t) == if digits != [] && -0x8000_0000 <= n <= 0x7fff_ffff then Some(n) else None
  {
    hide Decimal, SkipSpaces, Digits;
    DigitsOfDigits(digits, behind);
    var number := digits + behind;
    if sign == [] {
      assert sign + number == number;
      assert number != [] ==> number[0] == if digits != [] then digits[0] else behind[0];
    } else {
      assert (sign + number)[0] == sign[0] && (sign + number)[1..] == number;
    }
  }

  /** Every port written in decimal is read back as itself, whatever follows the digits. */
  lemma PortReadBack(port: U16, behind: Text)
    requires behind == [] || !IsDigit(behind[0])
    ensures var read := Stoi(Show(port) + behind); read.Some? && ToU16(read.value) == port
  {
    hide Show, Digits, Decimal, SkipSpaces, IsDigit;
    ShowIsDecimal(port);
    var digits := Show(port);
    DigitsOfDigits(digits, behind);
    var t := digits + behind;
    assert t[0] == digits[0];
    NothingInFront(t);
  }

  // ---------- one request ----------

  datatype Endpoint = Endpoint(host: Text, port: U16, uid: U16)

  predicate Complete(q: Query) {
    q.host.Some? && q.port.Some? && q.uid.Some?
  }

  /** Both numbers can be read. */
  predicate Numeric(q: Query)
    requires Complete(q)
  {
    Stoi(q.port.value).Some? && Stoi(q.uid.value).Some?
  }

  function EndpointOf(q: Query): Endpoint
    requires Complete(q) && Numeric(q)
  {
    Endpoint(q.host.value, ToU16(Stoi(q.port.value).value), ToU16(Stoi(q.uid.value).value))
  }

  /** A query with a host, a port and an id written in decimal names just that endpoint. */
  lemma EndpointRead(host: Text, port: U16, uid: U16)
    ensures var q := Query(Some(host), Some(Show(port)), Some(Show(uid)));
            Complete(q) && Numeric(q) && EndpointOf(q) == Endpoint(host, port, uid)
  {
    hide Show, Stoi;
    PortReadBack(port, []);
    PortReadBack(uid, []);
    assert Show(port) + [] == Show(port) && Show(uid) + [] == Show(uid);
  }

  /** A request with such a query that gets past the in-game check dials that endpoint. */
  lemma DialsItsEndpoint(f: Front, id: nat, host: Text, port: U16, uid: U16)
    requires id in f.requests && f.requests[id].stage == Locked
    requires f.requests[id].query == Query(Some(host), Some(Show(port)), Some(Show(uid)))
    ensures Step(f, Run(id, false)).requests[id].stage == Dialling(Endpoint(host, port, uid))
  {
    hide Show, Stoi;
    EndpointRead(host, port, uid);
  }

  /** Where a request is: before its `try_lock`; with the lock, before the in-game check; with the
      lock, connecting; with the lock, its answer chosen; answered; or ended by an exception while
      it held the lock. */
  datatype Stage =
    | Arrived
    | Locked
    | Dialling(endpoint: Endpoint)
    | Leaving(page: Page)
    | Answered(page: Page)
    | Thrown

  predicate Holds(stage: Stage) {
    stage.Locked? || stage.Dialling? || stage.Leaving? || stage.Thrown?
  }

  datatype Progress = Progress(stage: Stage, mutex: bool)

  /** One step of a request; `answer` is what the in-game check or the connection attempt returned. */
  function Advance(stage: Stage, mutex: bool, q: Query, answer: bool): Progress {
    match stage
    case Arrived =>
      if mutex then Progress(Answered(AlreadyConnecting), true) else Progress(Locked, true)
    case Locked =>
      if answer then Progress(Leaving(AlreadyIngame), mutex)
      else if !Complete(q) then Progress(Leaving(MissingParameters), mutex)
      else if !Numeric(q) then Progress(Thrown, mutex)
      else Progress(Dialling(EndpointOf(q)), mutex)
    case Dialling(_) => Progress(Leaving(if answer then Connected else UnableToConnect), mutex)
    case Leaving(page) => Progress(Answered(page), false)
    case Answered(_) => Progress(stage, mutex)
    case Thrown => Progress(stage, mutex)
  }

  // ---------- all requests ----------

  /** `locks` and `unlocks` count what the request did to the mutex. */
  datatype Request = Request(query: Query, stage: Stage, locks: nat, unlocks: nat)

  datatype Front = Front(mutex: bool, requests: map<nat, Request>)

  const IDLE := Front(false, map[])

  datatype Event =
    | Arrive(id: nat, query: Query)
    | Run(id: nat, answer: bool)

  function Step(f: Front, e: Event): Front {
    match e
    case Arrive(id, query) =>
      if id in f.requests then f else f.(requests := f.requests[id := Request(query, Arrived, 0, 0)])
    case Run(id, answer) =>
      if id !in f.requests then f
      else
        var r := f.requests[id];
        var next := Advance(r.stage, f.mutex, r.query, answer);
        var locks := if !f.mutex && next.mutex then r.locks + 1 else r.locks;
        var unlocks := if f.mutex && !next.mutex then r.unlocks + 1 else r.unlocks;
        Front(next.mutex, f.requests[id := Request(r.query, next.stage, locks, unlocks)])
  }

  function RunAll(f: Front, es: seq<Event>): Front
    decreases |es|
  {
    if es == [] then f else RunAll(Step(f, es[0]), es[1..])
  }

  ghost predicate HolderAt(f: Front, id: nat) {
    id in f.requests && Holds(f.requests[id].stage)
  }

  /** What a request has done to the mutex so far, told by its stage. */
  ghost predicate Accounted(r: Request) {
    match r.stage
    case Arrived => r.locks == 0 && r.unlocks == 0
    case Answered(page) => r.locks == r.unlocks == (if page == AlreadyConnecting then 0 else 1)
    case Leaving(page) => page != AlreadyConnecting && r.locks == 1 && r.unlocks == 0
    case _ => r.locks == 1 && r.unlocks == 0
  }

  ghost predicate Inv(f: Front) {
    && (forall i, j :: HolderAt(f, i) && HolderAt(f, j) ==> i == j)
    && (f.mutex <==> exists i :: HolderAt(f, i))
    && (forall i | i in f.requests :: Accounted(f.requests[i]))
  }

  lemma StepKeepsInv(f: Front, e: Event)
    requires Inv(f)
    ensures Inv(Step(f, e))
  {
    var g := Step(f, e);
    match e
    case Arrive(id, query) =>
      assert forall i :: HolderAt(g, i) <==> HolderAt(f, i);
    case Run(id, answer) =>
      assert forall i | i != id :: HolderAt(g, i) <==> HolderAt(f, i);
      if id in f.requests {
        assert HolderAt(f, id) ==> f.mutex;
        assert HolderAt(g, id) ==> g.mutex;
        if g.mutex {
          if !HolderAt(g, id) {
            var i :| HolderAt(f, i);
            assert HolderAt(g, i);
          }
        }
      }
  }

  /** In every interleaving of any number of requests at most one holds the lock, the mutex is locked
      exactly while one does, and every answered request released what it took: once, or never if
      it was turned away. */
  lemma {:induction false} MutualExclusion(f: Front, es: seq<Event>)
    requires Inv(f)
    ensures Inv(RunAll(f, es))
    decreases |es|
  {
    if es != [] {
      StepKeepsInv(f, es[0]);
      MutualExclusion(Step(f, es[0]), es[1..]);
    }
  }

  lemma IdleInv()
    ensures Inv(IDLE)
  {
  }

  /** A request is turned away exactly when another one holds the lock at its `try_lock`. */
  lemma TurnedAwayExact(es: seq<Event>, id: nat, answer: bool)
    requires var f := RunAll(IDLE, es); id in f.requests && f.requests[id].stage == Arrived
    ensures var f := RunAll(IDLE, es);
            var r := Step(f, Run(id, answer)).requests[id];
            && (r.stage == Answered(AlreadyConnecting) <==> exists other :: other != id && HolderAt(f, other))
            && (r.stage == Locked <==> !exists other :: HolderAt(f, other))
  {
    IdleInv();
    MutualExclusion(IDLE, es);
    var f := RunAll(IDLE, es);
    assert !HolderAt(f, id);
  }

  // ---------- letting go ----------

  /** Running request `id` three more times, with these answers. */
  function Finish(f: Front, id: nat, ingame: bool, connected: bool): Front {
    Step(Step(Step(f, Run(id, ingame)), Run(id, connected)), Run(id, connected))
  }

  function PageFor(q: Query, ingame: bool, connected: bool): Page {
    if ingame then AlreadyIngame
    else if !Complete(q) then MissingParameters
    else if connected then Connected
    else UnableToConnect
  }

  /** A request that has just taken the lock gives it back, whatever it is answered, exactly when the
      plugin is in game, a parameter is missing, or both numbers can be read. */
  lemma ReleasesExact(f: Front, id: nat, ingame: bool, connected: bool)
    requires Inv(f) && id in f.requests && f.requests[id].stage == Locked
    ensures var g := Finish(f, id, ingame, connected);
            var q := f.requests[id].query;
            && (!g.mutex <==> ingame || !Complete(q) || Numeric(q))
            && (g.mutex <==> g.requests[id].stage == Thrown)
            && (!g.mutex ==> g.requests[id].stage == Answered(PageFor(q, ingame, connected)))
  {
    hide Stoi, EndpointOf, Accounted;
    assert HolderAt(f, id);
  }

  ghost predicate Dead(f: Front, id: nat) {
    id in f.requests && f.requests[id].stage == Thrown
  }

  lemma {:induction false} DeadStaysDead(f: Front, es: seq<Event>, dead: nat)
    requires Inv(f) && Dead(f, dead)
    ensures Inv(RunAll(f, es)) && Dead(RunAll(f, es), dead)
    decreases |es|
  {
    if es != [] {
      StepKeepsInv(f, es[0]);
      DeadStaysDead(Step(f, es[0]), es[1..], dead);
    }
  }

  /** An exception under the lock shuts the front for good: whatever happens afterwards, every request
      that tries the lock is turned away. */
  lemma ThrownShutsFront(f: Front, es: seq<Event>, dead: nat, id: nat, answer: bool)
    requires Inv(f) && Dead(f, dead)
    requires var g := RunAll(f, es); id in g.requests && g.requests[id].stage == Arrived
    ensures Step(RunAll(f, es), Run(id, answer)).requests[id].stage == Answered(AlreadyConnecting)
  {
    DeadStaysDead(f, es, dead);
    assert HolderAt(RunAll(f, es), dead);
  }

  /** Queries are numeric whenever they are complete. */
  ghost predicate AllNumeric(es: seq<Event>) {
    forall i | 0 <= i < |es| && es[i].Arrive? :: Complete(es[i].query) ==> Numeric(es[i].query)
  }

  ghost predicate NobodyThrown(f: Front) {
    forall i | i in f.requests ::
      f.requests[i].stage != Thrown && (Complete(f.requests[i].query) ==> Numeric(f.requests[i].query))
  }

  /** With readable numbers no request ever dies under the lock. */
  lemma {:induction false} NumericNeverThrows(f: Front, es: seq<Event>)
    requires NobodyThrown(f) && AllNumeric(es)
    ensures NobodyThrown(RunAll(f, es))
    decreases |es|
  {
    if es != [] {
      assert es[0] in es;
      assert NobodyThrown(Step(f, es[0]));
      NumericNeverThrows(Step(f, es[0]), es[1..]);
    }
  }

  /** How many steps of its own a request needs at most until it is answered. */
  function StepsLeft(stage: Stage): nat {
    match stage
    case Arrived => 4
    case Locked => 3
    case Dialling(_) => 2
    case Leaving(_) => 1
    case Answered(_) => 0
    case Thrown => 0
  }

  function OwnSteps(es: seq<Event>, id: nat): nat {
    if es == [] then 0 else (if es[0].Run? && es[0].id == id then 1 else 0) + OwnSteps(es[1..], id)
  }

  /** Nobody can hold a request up, whatever happens between its steps: once it has taken those it
      needs, it is answered. */
  lemma {:induction false} OwnStepsAnswer(f: Front, es: seq<Event>, id: nat)
    requires id in f.requests && f.requests[id].stage != Thrown
    requires Complete(f.requests[id].query) ==> Numeric(f.requests[id].query)
    ensures var g := RunAll(f, es);
            && id in g.requests && g.requests[id].stage != Thrown
            && (g.requests[id].stage.Answered?
                || StepsLeft(g.requests[id].stage) + OwnSteps(es, id) <= StepsLeft(f.requests[id].stage))
    decreases |es|
  {
    hide Stoi, EndpointOf;
    if es != [] {
      OwnStepsAnswer(Step(f, es[0]), es[1..], id);
    }
  }

  /** With readable numbers every request, in any interleaving `later` with any number of others, is
      answered after at most four steps of its own, three once it holds the lock; and then it has
      released what it took. */
  lemma HolderCanLeave(es: seq<Event>, later: seq<Event>, id: nat)
    requires AllNumeric(es) && id in RunAll(IDLE, es).requests
    requires OwnSteps(later, id) >= StepsLeft(RunAll(IDLE, es).requests[id].stage)
    ensures var g := RunAll(RunAll(IDLE, es), later);
            && id in g.requests && g.requests[id].stage.Answered? && !HolderAt(g, id)
            && g.requests[id].locks == g.requests[id].unlocks
  {
    hide Stoi, EndpointOf;
    IdleInv();
    MutualExclusion(IDLE, es);
    NumericNeverThrows(IDLE, es);
    var f := RunAll(IDLE, es);
    MutualExclusion(f, later);
    OwnStepsAnswer(f, later, id);
    hide RunAll;
  }

  /** A port that is not a number: the request that names it dies with the lock. */
  lemma UnreadablePortThrows()
    ensures var q := Query(Some([104]), Some([120]), Some([49]));
            var f := RunAll(IDLE, [Arrive(0, q), Run(0, false), Run(0, false)]);
            f.mutex && Dead(f, 0)
  {
    var q := Query(Some([104]), Some([120]), Some([49]));
    assert Stoi([120]) == None;
    var f := Step(IDLE, Arrive(0, q));
    var g := Step(f, Run(0, false));
    var es := [Arrive(0, q), Run(0, false), Run(0, false)];
    assert es[1..] == [Run(0, false), Run(0, false)] && es[1..][1..] == [Run(0, false)];
    assert RunAll(IDLE, es) == RunAll(g, [Run(0, false)]) == Step(g, Run(0, false)) by {
      assert [Run(0, false)][1..] == [];
    }
  }

  // ---------- a request on its own ----------

  /** The request run from arrival to its end with nobody in between. */
  function Alone(mutex: bool, q: Query, ingame: bool, connected: bool): Progress {
    var p := Advance(Arrived, mutex, q, false);
    if p.stage.Answered? then p
    else
      var c := Advance(p.stage, p.mutex, q, ingame);
      var d := if c.stage.Dialling? then Advance(c.stage, c.mutex, q, connected) else c;
      Advance(d.stage, d.mutex, q, false)
  }
}
