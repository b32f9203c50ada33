/**
 `EventHandler.validate_handler!` of lib/prosody/handler.rb: which objects are
 accepted as handlers, whatever modules and error wrappers they are built from.
 */
module HandlerValidation {
  import opened Options

  type Name = string

  datatype Parameter = Req | Opt | Rest | KeyReq | Key | KeyRest | NoKey | Block

  /** An entry of the lookup order with its own methods, public or not. */
  datatype Owner = Owner(isEventHandler: bool, isWrapper: bool, methods: map<Name, seq<Parameter>>)

  /** An object: what its singleton class adds before its class's ancestors, and those ancestors. */
  datatype Handler = Handler(singleton: seq<Owner>, ancestors: seq<Owner>)

  datatype Verdict = Valid | NotImplemented(missing: Name) | NotTwoParameters(wrong: Name)

  const HANDLER_METHODS: seq<Name> := ["on_message", "on_excise", "on_timer"]

  function Lookup(h: Handler): seq<Owner> { h.singleton + h.ancestors }

  /** `take_while { |owner| owner != self }` */
  function Owners(ancestors: seq<Owner>): (owners: seq<Owner>)
    ensures owners <= ancestors && forall o | o in owners :: !o.isEventHandler
    ensures |owners| < |ancestors| ==> ancestors[|owners|].isEventHandler
  {
    if ancestors == [] || ancestors[0].isEventHandler then [] else [ancestors[0]] + Owners(ancestors[1..])
  }

  // --------------------------------------------------------------- parameters

  function Count(parameters: seq<Parameter>, kind: Parameter): nat {
    if parameters == [] then 0 else (if parameters[0] == kind then 1 else 0) + Count(parameters[1..], kind)
  }

  predicate AcceptsTwoParameters(parameters: seq<Parameter>) {
    var required := Count(parameters, Req);
    var positional := required + Count(parameters, Opt);
    KeyReq !in parameters && required <= 2 && (Rest in parameters || positional >= 2)
  }

  /** Ruby can bind `n` positional arguments and no keyword: each parameter is given its share of them. */
  predicate Binds(parameters: seq<Parameter>, n: nat) {
    if parameters == [] then n == 0
    else
      var rest := parameters[1..];
      match parameters[0]
      case Req => n > 0 && Binds(rest, n - 1)
      case Opt => Binds(rest, n) || (n > 0 && Binds(rest, n - 1))
      case Rest => exists left :: 0 <= left <= n && Binds(rest, left)
      case KeyReq => false
      case _ => Binds(rest, n)
  }

  function Sum(shares: seq<nat>): nat { if shares == [] then 0 else shares[0] + Sum(shares[1..]) }

  /** How many positional arguments a parameter can take: a required keyword cannot do without its own. */
  predicate CanTake(p: Parameter, share: nat) {
    match p
    case Req => share == 1
    case Opt => share <= 1
    case Rest => true
    case KeyReq => false
    case Key | KeyRest | NoKey | Block => share == 0
  }

  /** Some way to share out the arguments suits every parameter. */
  ghost predicate Shares(parameters: seq<Parameter>, shares: seq<nat>, n: nat) {
    |shares| == |parameters| && Sum(shares) == n && forall i :: 0 <= i < |shares| ==> CanTake(parameters[i], shares[i])
  }

  /** How many arguments the first parameter can leave to the others. */
  ghost function Left(parameters: seq<Parameter>, n: nat): (left: nat)
    requires parameters != [] && Binds(parameters, n)
    ensures left <= n && CanTake(parameters[0], n - left) && Binds(parameters[1..], left)
  {
    var rest := parameters[1..];
    match parameters[0]
    case Req => n - 1
    case Opt => if Binds(rest, n) then n else n - 1
    case Rest => (var left :| 0 <= left <= n && Binds(rest, left); left)
    case _ => n
  }

  /** Binding means that every argument finds a parameter and every parameter its arguments. */
  lemma {:induction false} BindsIffShares(parameters: seq<Parameter>, n: nat)
    ensures Binds(parameters, n) <==> exists shares :: Shares(parameters, shares, n)
    decreases |parameters|
  {
    if parameters == [] {
      assert n == 0 ==> Shares(parameters, [], n);
    } else {
      var rest := parameters[1..];
      if Binds(parameters, n) {
        var left: nat := Left(parameters, n);
        BindsIffShares(rest, left);
        var more :| Shares(rest, more, left);
        assert ([n - left] + more)[1..] == more;
        assert Shares(parameters, [n - left] + more, n);
      }
      if shares :| Shares(parameters, shares, n) {
        assert Shares(rest, shares[1..], n - shares[0]);
        BindsIffShares(rest, n - shares[0]);
      }
    }
  }

  /** The counts decide binding for any number of arguments and any parameter list. */
  lemma {:induction false} BindsIffCountsFit(parameters: seq<Parameter>, n: nat)
    ensures Binds(parameters, n) <==>
            KeyReq !in parameters && Count(parameters, Req) <= n &&
            (Rest in parameters || Count(parameters, Req) + Count(parameters, Opt) >= n)
    decreases |parameters|
  {
    if parameters != [] {
      var rest := parameters[1..];
      assert parameters == [parameters[0]] + rest;
      BindsIffCountsFit(rest, n);
      match parameters[0]
      case Req | Opt =>
        if n > 0 {
          BindsIffCountsFit(rest, n - 1);
        }
      case Rest =>
        forall left | 0 <= left <= n
          ensures Binds(rest, left) ==> KeyReq !in rest && Count(rest, Req) <= left
        {
          BindsIffCountsFit(rest, left);
        }
        if Count(rest, Req) <= n {
          BindsIffCountsFit(rest, Count(rest, Req));
        }
      case _ =>
    }
  }

  /** A handler method is accepted exactly when it can be called with a context and an event. */
  lemma AcceptsIffBindsTwo(parameters: seq<Parameter>)
    ensures AcceptsTwoParameters(parameters) <==> Binds(parameters, 2)
  {
    BindsIffCountsFit(parameters, 2);
  }

  // ------------------------------------------------------------- method lookup

  predicate Implements(o: Owner, name: Name) { !o.isWrapper && name in o.methods }

  predicate Implemented(owners: seq<Owner>, name: Name) {
    exists i :: 0 <= i < |owners| && Implements(owners[i], name)
  }

  /** `i` is the first definition in the list that is not an error wrapper's. */
  predicate FirstImplementation(owners: seq<Owner>, name: Name, i: nat) {
    i < |owners| && Implements(owners[i], name) && forall j :: 0 <= j < i ==> !Implements(owners[j], name)
  }

  /** What `Prosody::EventHandler.validate_handler!` asks: a class before it defines the method, and what a call reaches takes two. */
  ghost predicate Accepts(h: Handler, name: Name) {
    Implemented(Owners(h.ancestors), name) &&
    exists i: nat :: FirstImplementation(Lookup(h), name, i) && Binds(Lookup(h)[i].methods[name], 2)
  }

  /** The next definition at or after `from`: `method` and `super_method`. */
  method NextDefinition(lookup: seq<Owner>, name: Name, from: nat) returns (found: Option<nat>)
    requires from <= |lookup|
    ensures found.Some? ==>
              from <= found.value < |lookup| && name in lookup[found.value].methods &&
              forall j :: from <= j < found.value ==> name !in lookup[j].methods
    ensures found.None? ==> forall j :: from <= j < |lookup| ==> name !in lookup[j].methods
  {
    var i := from;
    while i < |lookup|
      invariant from <= i <= |lookup|
      invariant forall j :: from <= j < i ==> name !in lookup[j].methods
    {
      if name in lookup[i].methods {
        return Some(i);
      }
      i := i + 1;
    }
    return None;
  }

  /** Whether any owner defines the method itself, a wrapper aside. */
  method AnyImplements(owners: seq<Owner>, name: Name) returns (found: bool)
    ensures found <==> Implemented(owners, name)
  {
    for i := 0 to |owners|
      invariant forall j :: 0 <= j < i ==> !Implements(owners[j], name)
    {
      if Implements(owners[i], name) {
        return true;
      }
    }
    return false;
  }

  /** The loop that skips wrappers: it ends at an implementation, so the raise inside it is unreachable. */
  method MethodBehindWrappers(h: Handler, name: Name) returns (i: nat)
    requires Implemented(Owners(h.ancestors), name)
    ensures FirstImplementation(Lookup(h), name, i)
  {
    var lookup := Lookup(h);
    ghost var known := KnownImplementation(h, name);
    var definition := NextDefinition(lookup, name, 0);
    assert definition.Some?;
    i := definition.value;
    while lookup[i].isWrapper
      invariant i < |lookup| && name in lookup[i].methods
      invariant i <= known && forall j :: 0 <= j < i ==> !Implements(lookup[j], name)
      decreases |lookup| - i
    {
      var next := NextDefinition(lookup, name, i + 1);
      assert next.Some?;
      i := next.value;
    }
  }

  function Complaint(h: Handler, name: Name): Verdict {
    if Implemented(Owners(h.ancestors), name) then NotTwoParameters(name) else NotImplemented(name)
  }

  method ValidateMethod(h: Handler, owners: seq<Owner>, name: Name) returns (verdict: Verdict)
    requires owners == Owners(h.ancestors)
    ensures verdict == Valid <==> Accepts(h, name)
    ensures !Accepts(h, name) ==> verdict == Complaint(h, name)
  {
    var implemented := AnyImplements(owners, name);
    if !implemented {
      return NotImplemented(name);
    }
    var i := MethodBehindWrappers(h, name);
    var parameters := Lookup(h)[i].methods[name];
    AcceptsIffFirstBinds(h, name, i);
    AcceptsIffBindsTwo(parameters);
    return if AcceptsTwoParameters(parameters) then Valid else NotTwoParameters(name);
  }

  lemma AcceptsIffFirstBinds(h: Handler, name: Name, i: nat)
    requires Implemented(Owners(h.ancestors), name) && FirstImplementation(Lookup(h), name, i)
    ensures Accepts(h, name) <==> Binds(Lookup(h)[i].methods[name], 2)
  {
    if Accepts(h, name) {
      var j: nat :| FirstImplementation(Lookup(h), name, j) && Binds(Lookup(h)[j].methods[name], 2);
      assert i == j;
    }
  }

  ghost function KnownImplementation(h: Handler, name: Name): (i: nat)
    requires Implemented(Owners(h.ancestors), name)
    ensures i < |Lookup(h)| && Implements(Lookup(h)[i], name)
  {
    var owners := Owners(h.ancestors);
    var j :| 0 <= j < |owners| && Implements(owners[j], name);
    assert Lookup(h)[|h.singleton| + j] == owners[j];
    |h.singleton| + j
  }

  /** The first of the three methods that is not accepted decides the error. */
  method ValidateHandler(h: Handler) returns (verdict: Verdict)
    ensures verdict == Valid <==> Accepts(h, "on_message") && Accepts(h, "on_excise") && Accepts(h, "on_timer")
    ensures !Accepts(h, "on_message") ==> verdict == Complaint(h, "on_message")
    ensures Accepts(h, "on_message") && !Accepts(h, "on_excise") ==> verdict == Complaint(h, "on_excise")
    ensures Accepts(h, "on_message") && Accepts(h, "on_excise") && !Accepts(h, "on_timer") ==>
              verdict == Complaint(h, "on_timer")
  {
    var owners := Owners(h.ancestors);
    assert HANDLER_METHODS[0] == "on_message" && HANDLER_METHODS[1] == "on_excise" && HANDLER_METHODS[2] == "on_timer";
    for k := 0 to |HANDLER_METHODS|
      invariant forall j :: 0 <= j < k ==> Accepts(h, HANDLER_METHODS[j])
    {
      verdict := ValidateMethod(h, owners, HANDLER_METHODS[k]);
      if verdict != Valid {
        return;
      }
    }
    return Valid;
  }

  // --------------------------------------------------------- the lookup-order reading

  /** The definition that a call reaches lies before EventHandler and takes two. */
  ghost predicate CallReachesOwnMethod(h: Handler, name: Name) {
    exists i: nat ::
      FirstImplementation(Lookup(h), name, i) && i < |h.singleton| + |Owners(h.ancestors)| &&
      Binds(Lookup(h)[i].methods[name], 2)
  }

  lemma ReachedOwnerIsImplemented(h: Handler, name: Name, i: nat)
    requires FirstImplementation(Lookup(h), name, i)
    ensures Implemented(Owners(h.ancestors), name) ==> i < |h.singleton| + |Owners(h.ancestors)|
    ensures |h.singleton| <= i < |h.singleton| + |Owners(h.ancestors)| ==> Implemented(Owners(h.ancestors), name)
  {
    var owners, n := Owners(h.ancestors), |h.singleton|;
    if Implemented(owners, name) {
      var j :| 0 <= j < |owners| && Implements(owners[j], name);
      assert Lookup(h)[n + j] == owners[j];
    }
    if n <= i < n + |owners| {
      assert owners[i - n] == Lookup(h)[i];
    }
  }

  /**
   Acceptance is that reading, except for one family: a method that only the
   object's own singleton class defines is refused although a call would reach it.
   */
  lemma AcceptsIffReachedAndInClass(h: Handler, name: Name)
    ensures Accepts(h, name) <==> CallReachesOwnMethod(h, name) && Implemented(Owners(h.ancestors), name)
  {
    forall i: nat | FirstImplementation(Lookup(h), name, i)
      ensures Implemented(Owners(h.ancestors), name) ==> i < |h.singleton| + |Owners(h.ancestors)|
    {
      ReachedOwnerIsImplemented(h, name, i);
    }
  }

  /** The two agree on every object whose singleton class leaves the method to its class. */
  lemma AcceptsIffReached(h: Handler, name: Name)
    requires Implemented(h.singleton, name) ==> Implemented(Owners(h.ancestors), name)
    ensures Accepts(h, name) <==> CallReachesOwnMethod(h, name)
  {
    AcceptsIffReachedAndInClass(h, name);
    if CallReachesOwnMethod(h, name) {
      var i: nat :| FirstImplementation(Lookup(h), name, i) && i < |h.singleton| + |Owners(h.ancestors)|;
      ReachedOwnerIsImplemented(h, name, i);
      if i < |h.singleton| {
        assert Implements(h.singleton[i], name);
      }
    }
  }

  const BASE := Owner(true, false, map["on_message" := [Req, Req], "on_excise" := [Req, Req], "on_timer" := [Req, Req]])

  /** A handler with `def handler.on_message(context, message)` and no such method in its class. */
  lemma SingletonMethodIsRefused()
    ensures var h := Handler([Owner(false, false, map["on_message" := [Req, Req]])], [BASE]);
            CallReachesOwnMethod(h, "on_message") && !Accepts(h, "on_message")
  {
    var h := Handler([Owner(false, false, map["on_message" := [Req, Req]])], [BASE]);
    assert Owners(h.ancestors) == [];
    BindsIffCountsFit([Req, Req], 2);
    assert [Req, Req][1..] == [Req] && [Req][1..] == [];
    assert FirstImplementation(Lookup(h), "on_message", 0);
  }
}
