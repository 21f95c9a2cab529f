/** The client's table of closures that give buffers back, between Release and Close. */
module Releases {

  /** releaseFns and the token counter; `ran` counts how often each token's closure has run. */
  datatype Book = Book(next: nat, fns: set<nat>, ran: map<nat, nat>)

  function Runs(b: Book, token: nat): nat {
    if token in b.ran then b.ran[token] else 0
  }

  function Register(b: Book): Book {
    b.(next := b.next + 1, fns := b.fns + {b.next + 1})
  }

  function RunOne(b: Book, token: nat): Book {
    b.(ran := b.ran[token := Runs(b, token) + 1])
  }

  /** Close: every closure still in the table runs once. */
  function RunAll(b: Book): Book {
    Book(b.next, {}, map token | token in b.ran.Keys + b.fns :: if token in b.fns then Runs(b, token) + 1 else b.ran[token])
  }

  /** Tokens up to the counter have been handed out, and no others. */
  predicate BookInv(b: Book) {
    (forall t <- b.fns :: 1 <= t <= b.next) && (forall t <- b.ran :: 1 <= t <= b.next)
  }

  lemma RunAllKeeps(b: Book)
    requires BookInv(b)
    ensures BookInv(RunAll(b))
  {
  }

  /** All but the closures in `left` have been run. */
  predicate Partly(b: Book, left: set<nat>, ran: map<nat, nat>) {
    && ran.Keys == b.ran.Keys + (b.fns - left)
    && forall t <- ran :: ran[t] == if t in b.fns && t !in left then Runs(b, t) + 1 else Runs(b, t)
  }

  lemma PartlyNext(b: Book, left: set<nat>, ran: map<nat, nat>, token: nat)
    requires left <= b.fns && token in left && Partly(b, left, ran)
    ensures Partly(b, left - {token}, ran[token := (if token in ran then ran[token] else 0) + 1])
  {
  }

  lemma PartlyAll(b: Book, ran: map<nat, nat>)
    requires Partly(b, {}, ran)
    ensures ran == RunAll(b).ran
  {
  }

  /** The table as the client keeps it; each method is one critical section of releaseMu. */
  class ReleaseTable {
    var next: nat
    var fns: set<nat>
    var ran: map<nat, nat>

    function Value(): Book
      reads this
    {
      Book(next, fns, ran)
    }

    constructor ()
      ensures Value() == Book(0, {}, map[]) && BookInv(Value())
    {
      next, fns, ran := 0, {}, map[];
    }

    /** The token is new: no closure is registered under it, none has run under it, and it is not the
        zero that stands for no buffer. */
    method RegisterRelease() returns (token: nat)
      requires BookInv(Value())
      modifies this
      ensures Value() == Register(old(Value())) && BookInv(Value())
      ensures token != 0 && token !in old(fns) && Runs(old(Value()), token) == 0
      ensures fns == old(fns) + {token}
    {
      next := next + 1;
      token := next;
      fns := fns + {token};
    }

    /** The locked half of Release: the closure, if it is still there, is the caller's to run. */
    method Take(token: nat) returns (found: bool)
      requires BookInv(Value())
      modifies this`fns
      ensures BookInv(Value())
      ensures found <==> token != 0 && token in old(fns)
      ensures fns == if token == 0 then old(fns) else old(fns) - {token}
    {
      if token == 0 { return false; }
      found := token in fns;
      fns := fns - {token};
    }

    method RunClosure(token: nat)
      modifies this`ran
      ensures Value() == RunOne(old(Value()), token)
    {
      ran := ran[token := (if token in ran then ran[token] else 0) + 1];
    }

    /** The loop of Close, under the lock. */
    method RunRemaining()
      requires BookInv(Value())
      modifies this
      ensures Value() == RunAll(old(Value())) && BookInv(Value())
    {
      ghost var was := Value();
      while fns != {}
        invariant fns <= was.fns && next == was.next && Partly(was, fns, ran)
        decreases |fns|
      {
        var token :| token in fns;
        PartlyNext(was, fns, ran, token);
        RunClosure(token);
        fns := fns - {token};
      }
      PartlyAll(was, ran);
      RunAllKeeps(was);
    }
  }

  // ------------------------------------------------------------ interleavings

  datatype Lock = Open | Closing | Closed

  /** Goroutines inside Release hold the token they have claimed; `mark` is the last token registered
      before Close took the lock. */
  datatype Sys = Sys(book: Book, claims: map<nat, nat>, lock: Lock, mark: nat)

  datatype Step =
    | DoRegister
    | DoTake(g: nat, token: nat)
    | DoRun(g: nat)
    | DoBeginClose
    | DoRunHeld(token: nat)
    | DoEndClose

  /** Close runs once, and keeps the lock while it runs closures. */
  predicate CanStep(s: Sys, m: Step) {
    match m
    case DoRegister => s.lock != Closing
    case DoTake(g, token) => s.lock != Closing && g !in s.claims
    case DoRun(g) => g in s.claims
    case DoBeginClose => s.lock == Open
    case DoRunHeld(token) => s.lock == Closing && token in s.book.fns
    case DoEndClose => s.lock == Closing && s.book.fns == {}
  }

  function StepTo(s: Sys, m: Step): Sys
    requires CanStep(s, m)
  {
    match m
    case DoRegister => s.(book := Register(s.book))
    case DoTake(g, token) =>
      if token in s.book.fns
      then s.(book := s.book.(fns := s.book.fns - {token}), claims := s.claims[g := token])
      else s
    case DoRun(g) => s.(book := RunOne(s.book, s.claims[g]), claims := s.claims - {g})
    case DoBeginClose => s.(lock := Closing, mark := s.book.next)
    case DoRunHeld(token) => s.(book := RunOne(s.book, token).(fns := s.book.fns - {token}))
    case DoEndClose => s.(lock := Closed)
  }

  ghost predicate CanSteps(s: Sys, ms: seq<Step>)
    decreases |ms|
  {
    ms == [] || (CanStep(s, ms[0]) && CanSteps(StepTo(s, ms[0]), ms[1..]))
  }

  function Steps(s: Sys, ms: seq<Step>): Sys
    requires CanSteps(s, ms)
    decreases |ms|
  {
    if ms == [] then s else Steps(StepTo(s, ms[0]), ms[1..])
  }

  function Claimed(s: Sys): set<nat> {
    set g | g in s.claims :: s.claims[g]
  }

  /** Each token handed out is in the table, claimed by one goroutine, or has run, and just one of these. */
  ghost predicate SysInv(s: Sys) {
    && (forall t <- s.book.fns :: 1 <= t <= s.book.next && Runs(s.book, t) == 0 && t !in Claimed(s))
    && (forall g <- s.claims :: 1 <= s.claims[g] <= s.book.next && Runs(s.book, s.claims[g]) == 0)
    && (forall g <- s.claims, h <- s.claims :: g != h ==> s.claims[g] != s.claims[h])
    && (forall t <- s.book.ran :: 1 <= t <= s.book.next && s.book.ran[t] <= 1)
    && (forall t :: 1 <= t <= s.book.next ==> t in s.book.fns || t in Claimed(s) || Runs(s.book, t) == 1)
    && s.mark <= s.book.next
    && (s.lock == Closed ==> forall t <- s.book.fns :: t > s.mark)
  }

  lemma StartsEmpty()
    ensures SysInv(Start())
  {
  }

  lemma ClaimsAfterTake(s: Sys, g: nat, token: nat)
    requires g !in s.claims
    ensures Claimed(s.(claims := s.claims[g := token])) == Claimed(s) + {token}
  {
    var s' := s.(claims := s.claims[g := token]);
    forall t | t in Claimed(s) + {token} ensures t in Claimed(s') {
      if t == token {
        assert s'.claims[g] == t;
      } else {
        var h :| h in s.claims && s.claims[h] == t;
        assert s'.claims[h] == t;
      }
    }
  }

  lemma ClaimsAfterRun(s: Sys, g: nat)
    requires g in s.claims && forall h <- s.claims, k <- s.claims :: h != k ==> s.claims[h] != s.claims[k]
    ensures Claimed(s.(claims := s.claims - {g})) == Claimed(s) - {s.claims[g]}
  {
    var s' := s.(claims := s.claims - {g});
    forall t | t in Claimed(s) && t != s.claims[g] ensures t in Claimed(s') {
      var h :| h in s.claims && s.claims[h] == t;
      assert h in s'.claims;
    }
  }

  lemma TakeKeepsInv(s: Sys, g: nat, token: nat)
    requires SysInv(s) && CanStep(s, DoTake(g, token))
    ensures SysInv(StepTo(s, DoTake(g, token)))
  {
    hide Claimed;
    var s' := StepTo(s, DoTake(g, token));
    if token in s.book.fns {
      TableTokenFree(s, token);
      ClaimsAfterTake(s, g, token);
      SameClaims(s', s.(claims := s.claims[g := token]));
    }
  }

  lemma TableTokenFree(s: Sys, token: nat)
    requires SysInv(s) && token in s.book.fns
    ensures forall g <- s.claims :: s.claims[g] != token
  {
    forall g | g in s.claims ensures s.claims[g] != token {
      assert s.claims[g] in Claimed(s);
    }
  }

  lemma RunKeepsInv(s: Sys, g: nat)
    requires SysInv(s) && CanStep(s, DoRun(g))
    ensures SysInv(StepTo(s, DoRun(g)))
  {
    hide Claimed;
    ClaimsAfterRun(s, g);
    ClaimedAre(s, g);
    SameClaims(StepTo(s, DoRun(g)), s.(claims := s.claims - {g}));
  }

  lemma ClaimedAre(s: Sys, g: nat)
    requires g in s.claims
    ensures s.claims[g] in Claimed(s)
  {
  }

  lemma RunHeldKeepsInv(s: Sys, token: nat)
    requires SysInv(s) && CanStep(s, DoRunHeld(token))
    ensures SysInv(StepTo(s, DoRunHeld(token)))
  {
    hide Claimed;
    TableTokenFree(s, token);
    SameClaims(s, StepTo(s, DoRunHeld(token)));
  }

  lemma SameClaims(s: Sys, s': Sys)
    requires s'.claims == s.claims
    ensures Claimed(s') == Claimed(s)
  {
  }

  lemma RegisterKeepsInv(s: Sys)
    requires SysInv(s) && CanStep(s, DoRegister)
    ensures SysInv(StepTo(s, DoRegister))
  {
    hide Claimed;
    SameClaims(s, StepTo(s, DoRegister));
    if s.book.next + 1 in Claimed(s) {
      ClaimedBy(s, s.book.next + 1);
    }
  }

  lemma ClaimedBy(s: Sys, token: nat)
    requires token in Claimed(s)
    ensures exists g :: g in s.claims && s.claims[g] == token
  {
  }

  lemma StepKeepsInv(s: Sys, m: Step)
    requires SysInv(s) && CanStep(s, m)
    ensures SysInv(StepTo(s, m))
  {
    hide Claimed;
    match m
    case DoTake(g, token) => TakeKeepsInv(s, g, token);
    case DoRun(g) => RunKeepsInv(s, g);
    case DoRunHeld(token) => RunHeldKeepsInv(s, token);
    case DoRegister => RegisterKeepsInv(s);
    case _ => SameClaims(s, StepTo(s, m));
  }

  /** Over all interleavings of Release, repeated, concurrent and on copies, with Close: no token's
      closure runs twice, each that has not run is still in the table or with one goroutine that will
      run it, and once Close has let go of the lock none registered before it is left in the table. */
  lemma {:induction false} ReleaseAtMostOnce(s: Sys, ms: seq<Step>, token: nat)
    requires SysInv(s) && CanSteps(s, ms)
    requires 1 <= token <= Steps(s, ms).book.next
    ensures var s' := Steps(s, ms);
            && Runs(s'.book, token) <= 1
            && (Runs(s'.book, token) == 1 <==> token !in s'.book.fns && token !in Claimed(s'))
            && (token in s'.book.fns ==> token !in Claimed(s'))
            && (s'.lock == Closed && token <= s'.mark ==> Runs(s'.book, token) == 1 || token in Claimed(s'))
    decreases |ms|
  {
    if ms != [] {
      StepKeepsInv(s, ms[0]);
      ReleaseAtMostOnce(StepTo(s, ms[0]), ms[1..], token);
    } else if token in Claimed(s) {
      var g :| g in s.claims && s.claims[g] == token;
    }
  }

  function Start(): Sys {
    Sys(Book(0, {}, map[]), map[], Open, 0)
  }

  /** The same from a client's start. */
  lemma ReleaseAtMostOnceFromStart(ms: seq<Step>, token: nat)
    requires CanSteps(Start(), ms) && 1 <= token <= Steps(Start(), ms).book.next
    ensures var s := Steps(Start(), ms);
            && Runs(s.book, token) <= 1
            && (Runs(s.book, token) == 1 <==> token !in s.book.fns && token !in Claimed(s))
            && (s.lock == Closed && token <= s.mark ==> Runs(s.book, token) == 1 || token in Claimed(s))
  {
    StartsEmpty();
    ReleaseAtMostOnce(Start(), ms, token);
  }
}
