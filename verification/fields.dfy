/**
  The configuration record of a doer (txn.go): six fields with fixed defaults, changed only
  by field setters applied in order. A doer's state is its `DoerFields`; the accessors
  `Title()`, `Rethrow()`, `Timeout()`, `MaxPing()`, `MaxRetry()` and `Options()` are the
  datatype's destructors. Options are an opaque payload `O`, absent (`None`) when nil.
  Durations are nanoseconds, as in Go's `time.Duration`.
*/
module Fields {
  import opened Wrappers
  import opened Errors

  const Millisecond: int := 1_000_000
  const Second: int := 1_000 * Millisecond

  const DefaultTitle: string := "Txn`Nameless"
  const DefaultTimeout: int := 10 * Second
  const DefaultMaxPing: int := 4
  const DefaultMaxRetry: int := 4

  datatype DoerFields<O> = DoerFields(
    title: string,
    rethrow: bool,
    timeout: int,
    maxPing: int,
    maxRetry: int,
    options: Option<O>)

  /** Names the six fields, so that a setter can say which one it writes. */
  datatype Field = TitleField | RethrowField | TimeoutField | MaxPingField | MaxRetryField | OptionsField

  /** The `With*` setter constructors; each one writes a single field. */
  datatype Setter<O> =
    | WithTitle(title: string)
    | WithRethrow(rethrow: bool)
    | WithTimeout(timeout: int)
    | WithMaxPing(maxPing: int)
    | WithMaxRetry(maxRetry: int)
    | WithOptions(options: Option<O>)
  {
    /** The field this setter writes. */
    function Target(): Field
    {
      match this
      case WithTitle(_) => TitleField
      case WithRethrow(_) => RethrowField
      case WithTimeout(_) => TimeoutField
      case WithMaxPing(_) => MaxPingField
      case WithMaxRetry(_) => MaxRetryField
      case WithOptions(_) => OptionsField
    }
  }

  /** The record with every field at its default and no options. */
  function Defaults<O>(): DoerFields<O>
  {
    DoerFields(DefaultTitle, false, DefaultTimeout, DefaultMaxPing, DefaultMaxRetry, None)
  }

  /** `f` carries the value that setter `s` writes. */
  ghost predicate Holds<O>(f: DoerFields<O>, s: Setter<O>)
  {
    match s
    case WithTitle(v) => f.title == v
    case WithRethrow(v) => f.rethrow == v
    case WithTimeout(v) => f.timeout == v
    case WithMaxPing(v) => f.maxPing == v
    case WithMaxRetry(v) => f.maxRetry == v
    case WithOptions(v) => f.options == v
  }

  /** `f` and `g` agree on field `fld`. */
  ghost predicate SameField<O>(f: DoerFields<O>, g: DoerFields<O>, fld: Field)
  {
    match fld
    case TitleField => f.title == g.title
    case RethrowField => f.rethrow == g.rethrow
    case TimeoutField => f.timeout == g.timeout
    case MaxPingField => f.maxPing == g.maxPing
    case MaxRetryField => f.maxRetry == g.maxRetry
    case OptionsField => f.options == g.options
  }

  /** Running one setter on the record. */
  function Apply<O>(f: DoerFields<O>, s: Setter<O>): (r: DoerFields<O>)
    ensures Holds(r, s)
    ensures forall fld :: fld != s.Target() ==> SameField(r, f, fld)
  {
    match s
    case WithTitle(v) => f.(title := v)
    case WithRethrow(v) => f.(rethrow := v)
    case WithTimeout(v) => f.(timeout := v)
    case WithMaxPing(v) => f.(maxPing := v)
    case WithMaxRetry(v) => f.(maxRetry := v)
    case WithOptions(v) => f.(options := v)
  }

  /** No setter of `ss` writes field `fld`. */
  ghost predicate Untouched<O>(ss: seq<Setter<O>>, fld: Field)
  {
    forall j :: 0 <= j < |ss| ==> ss[j].Target() != fld
  }

  /** `ss[i]` is the last setter of `ss` that writes its field. */
  ghost predicate LastFor<O>(ss: seq<Setter<O>>, i: int)
    requires 0 <= i < |ss|
  {
    forall j :: i < j < |ss| ==> ss[j].Target() != ss[i].Target()
  }

  /** `DoerBase.MultiSet`: applies the setters in order; the last setter for a field wins. */
  function MultiSet<O>(f: DoerFields<O>, ss: seq<Setter<O>>): (r: DoerFields<O>)
    ensures forall fld :: Untouched(ss, fld) ==> SameField(r, f, fld)
    ensures forall i :: 0 <= i < |ss| && LastFor(ss, i) ==> Holds(r, ss[i])
    decreases |ss|
  {
    if ss == [] then f
    else
      var r := MultiSet(Apply(f, ss[0]), ss[1..]);
      assert forall i :: 1 <= i < |ss| && LastFor(ss, i) ==> LastFor(ss[1..], i - 1);
      assert forall fld :: Untouched(ss, fld) ==> Untouched(ss[1..], fld);
      assert LastFor(ss, 0) ==> Untouched(ss[1..], ss[0].Target());
      r
  }

  /** Calling `MultiSet` with no setters leaves the record as it was. */
  lemma MultiSetNoSetters<O>(f: DoerFields<O>)
    ensures MultiSet(f, []) == f
  {
  }

  /** `MultiSet(a + b)` is `MultiSet(a)` followed by `MultiSet(b)`. */
  lemma {:induction false} MultiSetAppend<O>(f: DoerFields<O>, a: seq<Setter<O>>, b: seq<Setter<O>>)
    ensures MultiSet(f, a + b) == MultiSet(MultiSet(f, a), b)
    decreases |a|
  {
    if a == [] {
      assert a + b == b;
    } else {
      assert (a + b)[0] == a[0];
      assert (a + b)[1..] == a[1..] + b;
      MultiSetAppend(Apply(f, a[0]), a[1..], b);
    }
  }

  /** The non-nil setters of `ss`, in order. */
  function Present<O>(ss: seq<Option<Setter<O>>>): (ps: seq<Setter<O>>)
    ensures |ps| <= |ss|
    // exactly the non-nil setters are kept; order is `PresentAppend`
    ensures forall i :: 0 <= i < |ps| ==> Some(ps[i]) in ss
    ensures forall j :: 0 <= j < |ss| && ss[j].Some? ==> ss[j].value in ps
    // a nil setter is dropped, a non-nil one kept
    ensures |ss| == 1 ==> ps == (if ss[0].Some? then [ss[0].value] else [])
    decreases |ss|
  {
    if ss == [] then []
    else if ss[0].Some? then [ss[0].value] + Present(ss[1..])
    else Present(ss[1..])
  }

  /** Filtering keeps order: the non-nil setters of `a + b` are those of `a`, then those of `b`. */
  lemma {:induction false} PresentAppend<O>(a: seq<Option<Setter<O>>>, b: seq<Option<Setter<O>>>)
    ensures Present(a + b) == Present(a) + Present(b)
    decreases |a|
  {
    if a == [] {
      assert a + b == b;
    } else {
      assert (a + b)[0] == a[0];
      assert (a + b)[1..] == a[1..] + b;
      PresentAppend(a[1..], b);
    }
  }

  /** No non-nil setter of `ss` writes field `fld`. */
  ghost predicate UntouchedPresent<O>(ss: seq<Option<Setter<O>>>, fld: Field)
  {
    forall j :: 0 <= j < |ss| && ss[j].Some? ==> ss[j].value.Target() != fld
  }

  /** `ss[i]` is non-nil and the last non-nil setter of `ss` that writes its field. */
  ghost predicate LastPresent<O>(ss: seq<Option<Setter<O>>>, i: int)
    requires 0 <= i < |ss|
  {
    ss[i].Some? &&
    forall j :: i < j < |ss| && ss[j].Some? ==> ss[j].value.Target() != ss[i].value.Target()
  }

  /** The setter loop of `NewDoerFields`: nil setters are skipped, the rest run in order. */
  function ApplyPresent<O>(f: DoerFields<O>, ss: seq<Option<Setter<O>>>): (r: DoerFields<O>)
    ensures forall fld :: UntouchedPresent(ss, fld) ==> SameField(r, f, fld)
    ensures forall i :: 0 <= i < |ss| && LastPresent(ss, i) ==> Holds(r, ss[i].value)
    decreases |ss|
  {
    if ss == [] then f
    else
      var f' := if ss[0].Some? then Apply(f, ss[0].value) else f;
      var r := ApplyPresent(f', ss[1..]);
      assert forall i :: 1 <= i < |ss| && LastPresent(ss, i) ==> LastPresent(ss[1..], i - 1);
      assert forall fld :: UntouchedPresent(ss, fld) ==> UntouchedPresent(ss[1..], fld);
      assert LastPresent(ss, 0) ==> UntouchedPresent(ss[1..], ss[0].value.Target());
      r
  }

  /** `NewDoerFields`: the defaults, then the non-nil setters in order. */
  function NewDoerFields<O>(ss: seq<Option<Setter<O>>>): (r: DoerFields<O>)
    ensures ss == [] ==>
      && r.title == "Txn`Nameless" && !r.rethrow && r.timeout == 10 * Second
      && r.maxPing == 4 && r.maxRetry == 4 && r.options.None?
    ensures forall fld :: UntouchedPresent(ss, fld) ==> SameField(r, Defaults(), fld)
    ensures forall i :: 0 <= i < |ss| && LastPresent(ss, i) ==> Holds(r, ss[i].value)
  {
    ApplyPresent(Defaults(), ss)
  }

  /** Skipping nil setters and applying the rest is `MultiSet` over the non-nil ones. */
  lemma {:induction false} ApplyPresentIsMultiSet<O>(f: DoerFields<O>, ss: seq<Option<Setter<O>>>)
    ensures ApplyPresent(f, ss) == MultiSet(f, Present(ss))
    decreases |ss|
  {
    if ss != [] {
      ApplyPresentIsMultiSet(if ss[0].Some? then Apply(f, ss[0].value) else f, ss[1..]);
      if ss[0].Some? {
        var ps := [ss[0].value] + Present(ss[1..]);
        assert ps[0] == ss[0].value && ps[1..] == Present(ss[1..]);
      }
    }
  }

  /** Result of an operation that may update the record and may fail. */
  datatype Updated<O> = Updated(fields: DoerFields<O>, err: Option<Error>)

  /** `DoerBase.Reset`: replaces the whole record, refusing a nil record or nil options. */
  function Reset<O>(cur: DoerFields<O>, fields: Option<DoerFields<O>>): (r: Updated<O>)
    ensures r.err.None? <==> fields.Some? && fields.value.options.Some?
    ensures r.err.None? ==> r.fields == fields.value
    ensures r.err.Some? ==> r.fields == cur && IsNilArgument(r.err.value)
  {
    if fields.None? then
      Updated(cur, Some(NilArgument("[txn.DoerBase.Reset fields]")))
    else if fields.value.options.None? then
      Updated(cur, Some(NilArgument("[txn.DoerBase.Reset fields.options]")))
    else
      Updated(fields.value, None)
  }

  /** A record built without any options setter cannot be installed by `Reset`. */
  lemma ResetRefusesBareFields<O>(cur: DoerFields<O>, ss: seq<Option<Setter<O>>>)
    requires UntouchedPresent(ss, OptionsField)
    ensures Reset(cur, Some(NewDoerFields(ss))).err.Some?
    ensures Reset(cur, Some(NewDoerFields(ss))).fields == cur
  {
  }

  /** The base `ResetAsReadOnly` is not implemented and changes nothing. */
  function ResetAsReadOnly<O>(cur: DoerFields<O>, title: string): (r: Updated<O>)
    ensures r.fields == cur
    ensures r.err.Some? && IsNotImplemented(r.err.value)
  {
    Updated(cur, Some(NotImplemented("[txn.DoerBase.ResetAsReadOnly]")))
  }

  /** The base `ResetAsReadWrite` is not implemented and changes nothing. */
  function ResetAsReadWrite<O>(cur: DoerFields<O>, title: string): (r: Updated<O>)
    ensures r.fields == cur
    ensures r.err.Some? && IsNotImplemented(r.err.value)
  {
    Updated(cur, Some(NotImplemented("[txn.DoerBase.ResetAsReadWrite]")))
  }

  /** The base `BeginTxn` is not implemented: it never yields a transaction handle. */
  function BeginTxn<O, H>(cur: DoerFields<O>): (r: Result<H, Error>)
    ensures r.Failure? && IsNotImplemented(r.error)
  {
    Failure(NotImplemented("[txn.DoerBase.BeginTxn]"))
  }
}
