/**
 The `permanent` and `transient` declarations of lib/prosody/handler.rb: each
 prepends a module whose method calls `super` and turns some of its exceptions
 into a PermanentError or a TransientError.
 */
module ErrorWrappers {
  import opened Options
  import opened ResultChannel

  type Name = string

  datatype Kind = PermanentKind | TransientKind

  /** `ancestors` is what a `rescue` compares with; `permanent` as in `Raised`. */
  datatype Exn = Exn(ancestors: set<Name>, message: string, permanent: Option<bool>)

  datatype Outcome = Returned(value: Returned) | Threw(error: Exn)

  datatype Declaration = Declaration(guarded: Name, classes: seq<Name>, kind: Kind)

  /** An entry of a class's ancestor list. */
  datatype Module = Plain(visible: set<Name>, hidden: set<Name>) | Wrapper(declaration: Declaration)

  datatype DeclarationError = NoExceptionClass | UndefinedMethod

  const HIERARCHY: set<Name> := {
    "Prosody::EventHandlerError", "Prosody::Error", "StandardError", "Exception", "Object", "Kernel", "BasicObject"}

  /** `error_class.new(message)`. */
  function Rewrapped(kind: Kind, message: string): Exn {
    match kind
    case PermanentKind => Exn(HIERARCHY + {"Prosody::PermanentError"}, message, Some(true))
    case TransientKind => Exn(HIERARCHY + {"Prosody::TransientError"}, message, Some(false))
  }

  // ------------------------------------------------------------ method lookup

  function Defines(m: Module, name: Name): bool {
    match m
    case Plain(visible, hidden) => name in visible || name in hidden
    case Wrapper(d) => name == d.guarded
  }

  /** `method_defined?`: the first definition in lookup order is not private. */
  function MethodDefined(ancestors: seq<Module>, name: Name): bool {
    if ancestors == [] then false
    else if Defines(ancestors[0], name) then ancestors[0].Wrapper? || name in ancestors[0].visible
    else MethodDefined(ancestors[1..], name)
  }

  function Catches(d: Declaration, e: Exn): bool {
    exists c | c in d.classes :: c in e.ancestors
  }

  function Rescued(d: Declaration, o: Outcome): Outcome {
    if o.Threw? && Catches(d, o.error) then Threw(Rewrapped(d.kind, o.error.message)) else o
  }

  /** A call of `name`, where the first definition that is not a wrapper does `body`. */
  function Call(ancestors: seq<Module>, name: Name, body: Outcome): Outcome {
    if ancestors == [] then body
    else if !Defines(ancestors[0], name) then Call(ancestors[1..], name, body)
    else match ancestors[0]
      case Plain(_, _) => body
      case Wrapper(d) => Rescued(d, Call(ancestors[1..], name, body))
  }

  predicate Accepted(ancestors: seq<Module>, d: Declaration) {
    d.classes != [] && MethodDefined(ancestors, d.guarded)
  }

  /** The ancestor list once the class body has made these declarations, in order. */
  function Declared(ancestors: seq<Module>, ds: seq<Declaration>): seq<Module>
    decreases |ds|
  {
    if ds == [] then ancestors
    else Declared(if Accepted(ancestors, ds[0]) then [Wrapper(ds[0])] + ancestors else ancestors, ds[1..])
  }

  class HandlerClass {
    var ancestors: seq<Module>

    constructor (chain: seq<Module>)
      ensures ancestors == chain
    {
      ancestors := chain;
    }

    /** A refused declaration leaves the class as it was. */
    method WrapErrors(d: Declaration) returns (error: Option<DeclarationError>)
      modifies this
      ensures ancestors == Declared(old(ancestors), [d])
      ensures error == None ==> ancestors == [Wrapper(d)] + old(ancestors)
      ensures error != None ==> ancestors == old(ancestors)
      ensures error == Some(NoExceptionClass) <==> d.classes == []
      ensures error == Some(UndefinedMethod) <==> d.classes != [] && !MethodDefined(old(ancestors), d.guarded)
    {
      assert Declared(ancestors, [d])
          == Declared(if Accepted(ancestors, d) then [Wrapper(d)] + ancestors else ancestors, []);
      if d.classes == [] {
        return Some(NoExceptionClass);
      }
      if !MethodDefined(ancestors, d.guarded) {
        return Some(UndefinedMethod);
      }
      ancestors := [Wrapper(d)] + ancestors;
      error := None;
    }
  }

  // ------------------------------------------------------------- one wrapper

  predicate DefinesIt(m: Module, name: Name) {
    (m.Plain? && (name in m.visible || name in m.hidden)) || (m.Wrapper? && m.declaration.guarded == name)
  }

  /** A method is defined exactly if the first module that has it has it public. */
  lemma {:induction false} MethodDefinedIff(ancestors: seq<Module>, name: Name)
    ensures MethodDefined(ancestors, name) <==>
            exists i :: 0 <= i < |ancestors| && DefinesIt(ancestors[i], name)
                        && (ancestors[i].Wrapper? || name in ancestors[i].visible)
                        && forall j :: 0 <= j < i ==> !DefinesIt(ancestors[j], name)
  {
    if ancestors != [] && !DefinesIt(ancestors[0], name) {
      var rest := ancestors[1..];
      MethodDefinedIff(rest, name);
      if MethodDefined(rest, name) {
        var i :| 0 <= i < |rest| && DefinesIt(rest[i], name) && (rest[i].Wrapper? || name in rest[i].visible)
                 && forall j :: 0 <= j < i ==> !DefinesIt(rest[j], name);
        assert ancestors[i + 1] == rest[i];
        assert forall j :: 0 <= j < i + 1 ==> !DefinesIt(ancestors[j], name) by {
          assert forall j :: 1 <= j < i + 1 ==> ancestors[j] == rest[j - 1];
        }
      }
      assert forall j :: 1 <= j < |ancestors| ==> ancestors[j] == rest[j - 1];
    }
  }

  /** What a declaration makes of an error: the same message, permanent as declared, in the hierarchy of handler errors. */
  predicate IsRewrapped(e: Exn, r: Outcome, kind: Kind) {
    && r.Threw? && r.error.message == e.message
    && (r.error.permanent == Some(true) <==> kind.PermanentKind?)
    && (r.error.permanent == Some(false) <==> kind.TransientKind?)
    && ("Prosody::PermanentError" in r.error.ancestors <==> kind.PermanentKind?)
    && ("Prosody::TransientError" in r.error.ancestors <==> kind.TransientKind?)
    && "Prosody::EventHandlerError" in r.error.ancestors && "Prosody::Error" in r.error.ancestors
    && "StandardError" in r.error.ancestors && "Exception" in r.error.ancestors
    && "Async::Stop" !in r.error.ancestors
  }

  /**
   One accepted declaration over a call that throws: an error with any of the declared
   classes among its ancestors is rewrapped, every other passes as it is.
   */
  lemma OneDeclarationRescues(ancestors: seq<Module>, d: Declaration, body: Outcome)
    requires d.classes != [] && MethodDefined(ancestors, d.guarded) && Call(ancestors, d.guarded, body).Threw?
    ensures var e, r := Call(ancestors, d.guarded, body).error, Call(Declared(ancestors, [d]), d.guarded, body);
            && ((exists i :: 0 <= i < |d.classes| && d.classes[i] in e.ancestors) ==> IsRewrapped(e, r, d.kind))
            && ((forall i :: 0 <= i < |d.classes| ==> d.classes[i] !in e.ancestors) ==> r == Threw(e))
  {
    DeclaredOnce(ancestors, d);
    var e := Call(ancestors, d.guarded, body).error;
    if i :| 0 <= i < |d.classes| && d.classes[i] in e.ancestors {
      assert d.classes[i] in d.classes;
    }
  }

  lemma DeclaredOnce(ancestors: seq<Module>, d: Declaration)
    ensures Declared(ancestors, [d]) == if Accepted(ancestors, d) then [Wrapper(d)] + ancestors else ancestors
  {
    assert [d][1..] == [];
  }

  /** A declaration for another method changes nothing for this one. */
  lemma OtherMethodUntouched(ancestors: seq<Module>, d: Declaration, name: Name, body: Outcome)
    requires d.guarded != name
    ensures Call(Declared(ancestors, [d]), name, body) == Call(ancestors, name, body)
  {
    DeclaredOnce(ancestors, d);
    assert ([Wrapper(d)] + ancestors)[1..] == ancestors;
  }

  // ----------------------------------------------------------- chain and fold

  /** The declarations that guard `name`, in declaration order. */
  function Guards(ancestors: seq<Module>, name: Name, ds: seq<Declaration>): seq<Declaration> {
    if ds == [] then []
    else if Accepted(ancestors, ds[0]) && ds[0].guarded == name
    then [ds[0]] + Guards(ancestors, name, ds[1..])
    else Guards(ancestors, name, ds[1..])
  }

  /** First declared first. */
  function Fold(guards: seq<Declaration>, o: Outcome): Outcome
    decreases |guards|
  {
    if guards == [] then o else Fold(guards[1..], Rescued(guards[0], o))
  }

  /** A wrapper defines no method that was not there, so declarations do not enable one another. */
  lemma WrappingDefinesNothing(ancestors: seq<Module>, d: Declaration, name: Name)
    requires Accepted(ancestors, d)
    ensures MethodDefined([Wrapper(d)] + ancestors, name) == MethodDefined(ancestors, name)
  {
    assert ([Wrapper(d)] + ancestors)[1..] == ancestors;
  }

  lemma {:induction false} GuardsDependOnTheBase(ancestors: seq<Module>, d: Declaration, name: Name, ds: seq<Declaration>)
    requires Accepted(ancestors, d)
    ensures Guards([Wrapper(d)] + ancestors, name, ds) == Guards(ancestors, name, ds)
  {
    if ds != [] {
      WrappingDefinesNothing(ancestors, d, ds[0].guarded);
      GuardsDependOnTheBase(ancestors, d, name, ds[1..]);
    }
  }

  /**
   However declarations for several methods interleave and whichever of them are
   refused, a call is the fold of the method's own accepted declarations, from
   the first declared to the last, over the call without them.
   */
  lemma {:induction false} ChainIsFold(ancestors: seq<Module>, ds: seq<Declaration>, name: Name, body: Outcome)
    ensures Call(Declared(ancestors, ds), name, body)
         == Fold(Guards(ancestors, name, ds), Call(ancestors, name, body))
    decreases |ds|
  {
    if ds != [] {
      var d := ds[0];
      if Accepted(ancestors, d) {
        var wrapped := [Wrapper(d)] + ancestors;
        assert wrapped[1..] == ancestors;
        ChainIsFold(wrapped, ds[1..], name, body);
        GuardsDependOnTheBase(ancestors, d, name, ds[1..]);
        if d.guarded == name {
          assert Guards(ancestors, name, ds)[1..] == Guards(ancestors, name, ds[1..]);
        }
      } else {
        ChainIsFold(ancestors, ds[1..], name, body);
      }
    }
  }

  // -------------------------------------------------------------- the last match

  /** A return value passes all wrappers; a message survives them. */
  lemma {:induction false} ValueAndMessageKept(guards: seq<Declaration>, o: Outcome)
    ensures o.Returned? ==> Fold(guards, o) == o
    ensures o.Threw? ==> Fold(guards, o).Threw? && Fold(guards, o).error.message == o.error.message
    decreases |guards|
  {
    if guards != [] {
      ValueAndMessageKept(guards[1..], Rescued(guards[0], o));
    }
  }

  predicate NoneCatches(guards: seq<Declaration>, e: Exn) {
    forall i :: 0 <= i < |guards| ==> !Catches(guards[i], e)
  }

  /** Wrapper `k` catches the error as it arrives there, and no later one catches what it makes of it. */
  predicate CatchesLast(guards: seq<Declaration>, e: Exn, k: nat) {
    k < |guards| &&
    Fold(guards[..k], Threw(e)).Threw? && Catches(guards[k], Fold(guards[..k], Threw(e)).error) &&
    NoneCatches(guards[k + 1..], Rewrapped(guards[k].kind, e.message))
  }

  lemma {:induction false} UncaughtPasses(guards: seq<Declaration>, e: Exn)
    requires NoneCatches(guards, e)
    ensures Fold(guards, Threw(e)) == Threw(e)
    decreases |guards|
  {
    if guards != [] {
      assert !Catches(guards[0], e);
      assert NoneCatches(guards[1..], e);
      UncaughtPasses(guards[1..], e);
    }
  }

  lemma {:induction false} FoldSplits(a: seq<Declaration>, b: seq<Declaration>, o: Outcome)
    ensures Fold(a + b, o) == Fold(b, Fold(a, o))
    decreases |a|
  {
    if a == [] {
      assert a + b == b;
    } else {
      assert (a + b)[1..] == a[1..] + b;
      FoldSplits(a[1..], b, Rescued(a[0], o));
    }
  }

  /** The class of the raised error is that of the last wrapper that catches it. */
  lemma LastMatchDecides(guards: seq<Declaration>, e: Exn, k: nat)
    requires CatchesLast(guards, e, k)
    ensures Fold(guards, Threw(e)) == Threw(Rewrapped(guards[k].kind, e.message))
  {
    var front, back := guards[..k], guards[k + 1..];
    ValueAndMessageKept(front, Threw(e));
    FoldSplits(front, [guards[k]] + back, Threw(e));
    assert guards == front + ([guards[k]] + back);
    assert ([guards[k]] + back)[1..] == back;
    UncaughtPasses(back, Rewrapped(guards[k].kind, e.message));
  }

  /** Unless no wrapper catches the error, one of them is the last to do so. */
  lemma {:induction false} SomeCatchIsLast(guards: seq<Declaration>, e: Exn)
    ensures NoneCatches(guards, e) || exists k: nat :: CatchesLast(guards, e, k)
    decreases |guards|
  {
    if !NoneCatches(guards, e) {
      var rest := guards[1..];
      var arrives := Rescued(guards[0], Threw(e)).error;
      SomeCatchIsLast(rest, arrives);
      if NoneCatches(rest, arrives) {
        assert forall i | 1 <= i < |guards| :: guards[i] == rest[i - 1];
        assert CatchesLast(guards, e, 0);
      } else {
        var k: nat :| CatchesLast(rest, arrives, k);
        assert guards[..k + 1][1..] == rest[..k];
        assert guards[k + 2..] == rest[k + 1..];
        assert CatchesLast(guards, e, k + 1);
      }
    }
  }

  /**
   If no wrapper catches what the others raise, the first declared match decides;
   later declarations cannot change the class of an error that is caught already.
   */
  lemma FirstMatchDecides(guards: seq<Declaration>, e: Exn, k: nat)
    requires forall i :: 0 <= i < |guards| ==>
               !Catches(guards[i], Rewrapped(PermanentKind, e.message)) &&
               !Catches(guards[i], Rewrapped(TransientKind, e.message))
    requires k < |guards| && Catches(guards[k], e) && NoneCatches(guards[..k], e)
    ensures Fold(guards, Threw(e)) == Threw(Rewrapped(guards[k].kind, e.message))
  {
    UncaughtPasses(guards[..k], e);
    LastMatchDecides(guards, e, k);
  }

  // ------------------------------------------------------------------ the category

  /** What the worker reports for a call that ends like this; nothing if the exception aborts it. */
  function Reported(o: Outcome, fullMessage: Option<string>, inspected: Option<string>): Option<Report> {
    match o
    case Returned(value) => Some(Success(value))
    case Threw(e) =>
      if "Async::Stop" in e.ancestors then Some(Failure(Raised(None, fullMessage, inspected, "Task cancelled")))
      else if "StandardError" in e.ancestors then Some(Failure(Raised(e.permanent, fullMessage, inspected, e.message)))
      else None
  }

  /** A return value is reported as it is, an ordinary error with its own word on permanence, a Stop without one. */
  lemma ReportedAsItEnded(o: Outcome, full: Option<string>, inspected: Option<string>)
    ensures o.Returned? ==> Reported(o, full, inspected) == Some(Success(o.value))
    ensures o.Threw? && "Async::Stop" !in o.error.ancestors && "StandardError" in o.error.ancestors ==>
              Reported(o, full, inspected) == Some(Failure(Raised(o.error.permanent, full, inspected, o.error.message)))
    ensures o.Threw? && "Async::Stop" in o.error.ancestors ==>
              Reported(o, full, inspected).Some? && Reported(o, full, inspected).value.Failure?
              && Reported(o, full, inspected).value.error.permanent == None
    ensures o.Threw? && "Async::Stop" !in o.error.ancestors && "StandardError" !in o.error.ancestors ==>
              Reported(o, full, inspected) == None
  {
  }

  /** What the Rust side receives, the sender being dropped if nothing was reported. */
  function Receives(report: Option<Report>): Received {
    match report
    case Some(r) => Translate(r)
    case None => Err(Closed)
  }

  predicate GivenUp(received: Received) {
    received.Err? && Classify(received.error) == NoRetry
  }

  /** A plain exception is given up on only if it is an ordinary error that says it is permanent. */
  predicate SaysPermanent(e: Exn) {
    "StandardError" in e.ancestors && "Async::Stop" !in e.ancestors && e.permanent == Some(true)
  }

  predicate OutcomeGivenUp(o: Outcome, fullMessage: Option<string>, inspected: Option<string>) {
    GivenUp(Receives(Reported(o, fullMessage, inspected)))
  }

  lemma GivenUpAsReported(o: Outcome, full: Option<string>, inspected: Option<string>)
    ensures OutcomeGivenUp(o, full, inspected) <==> o.Threw? && SaysPermanent(o.error)
  {
    if Reported(o, full, inspected).Some? {
      var report := Reported(o, full, inspected).value;
      assert Translate(report).Err? ==> Receives(Some(report)) == Translate(report);
    }
  }

  lemma NothingCaughtNothingLast(guards: seq<Declaration>, e: Exn, k: nat)
    requires NoneCatches(guards, e)
    ensures !CatchesLast(guards, e, k)
  {
    if k < |guards| {
      assert NoneCatches(guards[..k], e);
      UncaughtPasses(guards[..k], e);
    }
  }

  lemma LastMatchGivesUp(guards: seq<Declaration>, e: Exn, k: nat, full: Option<string>, inspected: Option<string>)
    requires CatchesLast(guards, e, k)
    ensures OutcomeGivenUp(Fold(guards, Threw(e)), full, inspected) <==> guards[k].kind == PermanentKind
  {
    LastMatchDecides(guards, e, k);
    GivenUpAsReported(Fold(guards, Threw(e)), full, inspected);
  }

  ghost predicate PermanentLast(guards: seq<Declaration>, e: Exn) {
    exists k: nat :: CatchesLast(guards, e, k) && guards[k].kind == PermanentKind
  }

  lemma FoldGivesUp(guards: seq<Declaration>, e: Exn, full: Option<string>, inspected: Option<string>)
    ensures OutcomeGivenUp(Fold(guards, Threw(e)), full, inspected) <==>
            PermanentLast(guards, e) || (NoneCatches(guards, e) && SaysPermanent(e))
  {
    SomeCatchIsLast(guards, e);
    if NoneCatches(guards, e) {
      UncaughtPasses(guards, e);
      GivenUpAsReported(Threw(e), full, inspected);
      if PermanentLast(guards, e) {
        var k: nat :| CatchesLast(guards, e, k);
        NothingCaughtNothingLast(guards, e, k);
        assert false;
      }
    } else {
      var last: nat :| CatchesLast(guards, e, last);
      LastMatchGivesUp(guards, e, last, full, inspected);
      if PermanentLast(guards, e) {
        var k: nat :| CatchesLast(guards, e, k) && guards[k].kind == PermanentKind;
        LastMatchGivesUp(guards, e, k, full, inspected);
      }
    }
  }

  /**
   From declarations to retries: an event is given up exactly when the last
   wrapper that catches the handler's exception declares it permanent, or none
   catches it and the exception itself says so.
   */
  lemma GivenUpIffPermanent(
    ancestors: seq<Module>, ds: seq<Declaration>, name: Name, body: Outcome, full: Option<string>, inspected: Option<string>)
    ensures var o := Call(ancestors, name, body);
            var guards := Guards(ancestors, name, ds);
            OutcomeGivenUp(Call(Declared(ancestors, ds), name, body), full, inspected) <==>
            o.Threw? && (PermanentLast(guards, o.error) || (NoneCatches(guards, o.error) && SaysPermanent(o.error)))
  {
    var o := Call(ancestors, name, body);
    var guards := Guards(ancestors, name, ds);
    ChainIsFold(ancestors, ds, name, body);
    ValueAndMessageKept(guards, o);
    if o.Threw? {
      FoldGivesUp(guards, o.error, full, inspected);
    } else {
      GivenUpAsReported(o, full, inspected);
    }
  }

  const STOP := Exn({"Async::Stop", "Exception", "Object", "Kernel", "BasicObject"}, "", None)

  /**
   A cancelled handler that lets the Stop through is retried exactly when the last
   wrapper that catches the Stop, if any does, is a transient one.
   */
  lemma CancelGivenUpIff(
    ancestors: seq<Module>, ds: seq<Declaration>, name: Name, body: Outcome, full: Option<string>, inspected: Option<string>)
    requires Call(ancestors, name, body) == Threw(STOP)
    ensures OutcomeGivenUp(Call(Declared(ancestors, ds), name, body), full, inspected)
            <==> PermanentLast(Guards(ancestors, name, ds), STOP)
  {
    GivenUpIffPermanent(ancestors, ds, name, body, full, inspected);
  }

  /** Declaring `Exception` permanent gives up what is cancelled. */
  lemma CatchingExceptionGivesUpCancelled(full: Option<string>)
    ensures var base := [Plain({"on_message"}, {})];
            var declared := Declared(base, [Declaration("on_message", ["Exception"], PermanentKind)]);
            !OutcomeGivenUp(Call(base, "on_message", Threw(STOP)), full, None) &&
            OutcomeGivenUp(Call(declared, "on_message", Threw(STOP)), full, None)
  {
    var base := [Plain({"on_message"}, {})];
    var d := Declaration("on_message", ["Exception"], PermanentKind);
    assert Accepted(base, d);
    assert Declared(base, [d]) == Declared([Wrapper(d)] + base, []);
    assert ([Wrapper(d)] + base)[1..] == base;
    assert "Exception" in d.classes;
    assert Catches(d, STOP);
  }
}
