/**
 * Value types shared by the whole provider model: Terraform plan/state/config values,
 * SDK patch fields, remote-call results and diagnostics, and the per-field policies the
 * resources use to turn a plan value into a request field.
 */
module Values {

  datatype Option<+T> = None | Some(value: T)

  /** A Terraform plan, state or configuration value: null, not yet known, or known. */
  datatype Cfg<+T> = Null | Unknown | Known(value: T)

  /**
   * An SDK patch field. `NotSent` is a field left unassigned in the request,
   * `Set(v)` is `paddle.NewPatchField(v)`, and `Cleared` is `paddle.NewPatchField(nil)`.
   */
  datatype Patch<+T> = NotSent | Set(value: T) | Cleared

  /** The outcome of one remote SDK call; the call itself is not modelled. */
  datatype ApiResult<+T> = Ok(value: T) | Failed(cause: string)

  /**
   * A framework diagnostic: an error attached to an attribute path, or a general error.
   * Only the summary line is kept; the detail text is not modelled.
   */
  datatype Diagnostic = AttributeError(path: string, summary: string) | GeneralError(summary: string)

  /** `ValueString()`, `ValueBool()`, `ValueInt64()`: the value, or the type's zero when null or unknown. */
  function ValueOr<T>(c: Cfg<T>, zero: T): (v: T)
    ensures c.Known? ==> v == c.value
    ensures !c.Known? ==> v == zero
  {
    match c
    case Known(x) => x
    case _ => zero
  }

  function ValueString(c: Cfg<string>): string { ValueOr(c, "") }

  function ValueBool(c: Cfg<bool>): bool { ValueOr(c, false) }

  function ValueInt(c: Cfg<int>): int { ValueOr(c, 0) }

  /** A Go pointer or nil read back into state: nil becomes null. */
  function FromOptional<T>(o: Option<T>): (c: Cfg<T>)
    ensures c.Null? <==> o.None?
    ensures o.Some? ==> c == Known(o.value)
  {
    match o
    case None => Null
    case Some(v) => Known(v)
  }

  /** What a plan value that is not unknown asks the remote field to hold: absent for null. */
  function Denotes<T>(c: Cfg<T>): Option<T>
    requires !c.Unknown?
  {
    if c.Known? then Some(c.value) else None
  }

  /**
   * The meaning of a patch field for the remote field it targets: an unsent field keeps its
   * value, a set field takes the new value, a cleared field becomes absent.
   */
  function ApplyTo<T>(p: Patch<T>, current: Option<T>): (r: Option<T>)
  {
    match p
    case NotSent => current
    case Set(v) => Some(v)
    case Cleared => None
  }

  // Request-field policies. Each names one pattern of conditional assignment that the
  // resources use for a request field; the resource files say which field gets which.

  /** `f: paddle.NewPatchField(x.ValueX())` in the request literal: always sent. */
  function AlwaysSet<T>(c: Cfg<T>, zero: T): (p: Patch<T>)
    ensures p.Set?
    ensures c.Known? ==> p.value == c.value
  {
    Set(ValueOr(c, zero))
  }

  /** `if !x.IsNull() { f = NewPatchField(x.ValueX()) }`: sent unless null, never cleared. */
  function SetUnlessNull<T>(c: Cfg<T>, zero: T): (p: Patch<T>)
    ensures p == NotSent <==> c.Null?
    ensures p != Cleared
    ensures c.Known? ==> p == Set(c.value)
  {
    if !c.Null? then Set(ValueOr(c, zero)) else NotSent
  }

  /** `if !x.IsNull() && !x.IsUnknown() { f = NewPatchField(v) }`: sent only when known. */
  function SetIfKnown<T>(c: Cfg<T>): (p: Patch<T>)
    ensures p.Set? <==> c.Known?
    ensures p != Cleared
    ensures c.Known? ==> p.value == c.value
  {
    if c.Known? then Set(c.value) else NotSent
  }

  /** `if !x.IsNull() { f = NewPatchField(&v) } else { f = NewPatchField(nil) }`. */
  function ClearIfNull<T>(c: Cfg<T>, zero: T): (p: Patch<T>)
    ensures p == Cleared <==> c.Null?
    ensures p != NotSent
    ensures c.Known? ==> p == Set(c.value)
  {
    if !c.Null? then Set(ValueOr(c, zero)) else Cleared
  }

  /** `if known { Set } else if null { NewPatchField(nil) }`: unknown is not sent. */
  function SetKnownClearNull<T>(c: Cfg<T>): (p: Patch<T>)
    ensures p.Set? <==> c.Known?
    ensures p == Cleared <==> c.Null?
    ensures c.Known? ==> p.value == c.value
  {
    if c.Known? then Set(c.value) else if c.Null? then Cleared else NotSent
  }

  /** `if known { Set(v) } else if null { Set(default) }`: null sends a fixed value, unknown nothing. */
  function SetKnownDefaultNull<T>(c: Cfg<T>, default: T): (p: Patch<T>)
    ensures p == NotSent <==> c.Unknown?
    ensures p != Cleared
    ensures c.Known? ==> p == Set(c.value)
    ensures c.Null? ==> p == Set(default)
  {
    if c.Known? then Set(c.value) else if c.Null? then Set(default) else NotSent
  }

  /** Create-request pointer `if !x.IsNull() { f = &v }`: included unless null. */
  function IncludeUnlessNull<T>(c: Cfg<T>, zero: T): (o: Option<T>)
    ensures o.None? <==> c.Null?
    ensures c.Known? ==> o == Some(c.value)
  {
    if !c.Null? then Some(ValueOr(c, zero)) else None
  }

  /** Create-request pointer `if !x.IsNull() && !x.IsUnknown() { f = &v }`: included only when known. */
  function IncludeIfKnown<T>(c: Cfg<T>): (o: Option<T>)
    ensures o.Some? <==> c.Known?
    ensures o.Some? ==> o.value == c.value
  {
    if c.Known? then Some(c.value) else None
  }

  // Assignment steps. Each performs one policy's conditional assignment the way the handlers
  // write it, a guard and an assignment, and is proved to produce the policy's value. The
  // request builders call one step per field.

  method SetUnlessNullStep<T>(c: Cfg<T>, zero: T) returns (p: Patch<T>)
    ensures p == SetUnlessNull(c, zero)
  {
    p := NotSent;
    if !c.Null? {
      p := Set(ValueOr(c, zero));
    }
  }

  method SetIfKnownStep<T>(c: Cfg<T>) returns (p: Patch<T>)
    ensures p == SetIfKnown(c)
  {
    p := NotSent;
    if !c.Null? && !c.Unknown? {
      p := Set(c.value);
    }
  }

  method ClearIfNullStep<T>(c: Cfg<T>, zero: T) returns (p: Patch<T>)
    ensures p == ClearIfNull(c, zero)
  {
    if !c.Null? {
      p := Set(ValueOr(c, zero));
    } else {
      p := Cleared;
    }
  }

  method SetKnownClearNullStep<T>(c: Cfg<T>) returns (p: Patch<T>)
    ensures p == SetKnownClearNull(c)
  {
    p := NotSent;
    if !c.Null? && !c.Unknown? {
      p := Set(c.value);
    } else if c.Null? {
      p := Cleared;
    }
  }

  method SetKnownDefaultNullStep<T>(c: Cfg<T>, default: T) returns (p: Patch<T>)
    ensures p == SetKnownDefaultNull(c, default)
  {
    p := NotSent;
    if !c.Null? && !c.Unknown? {
      p := Set(c.value);
    } else if c.Null? {
      p := Set(default);
    }
  }

  method IncludeUnlessNullStep<T>(c: Cfg<T>, zero: T) returns (o: Option<T>)
    ensures o == IncludeUnlessNull(c, zero)
  {
    o := None;
    if !c.Null? {
      o := Some(ValueOr(c, zero));
    }
  }

  method IncludeIfKnownStep<T>(c: Cfg<T>) returns (o: Option<T>)
    ensures o == IncludeIfKnown(c)
  {
    o := None;
    if !c.Null? && !c.Unknown? {
      o := Some(c.value);
    }
  }

  /** Read's `if p != nil { x = Value(*p) } else { x = Null() }`. */
  method FromOptionalStep<T>(o: Option<T>) returns (c: Cfg<T>)
    ensures c == FromOptional(o)
  {
    if o.Some? {
      c := Known(o.value);
    } else {
      c := Null;
    }
  }

  /**
   * The clearing policies make the remote field converge: after the patch it holds exactly
   * what the plan denotes, whatever it held before ("no stale values linger").
   */
  lemma ClearingPoliciesConverge<T>(c: Cfg<T>, zero: T, current: Option<T>)
    requires !c.Unknown?
    ensures ApplyTo(ClearIfNull(c, zero), current) == Denotes(c)
    ensures ApplyTo(SetKnownClearNull(c), current) == Denotes(c)
  {
  }

  /** The policies that never clear leave a remote value in place when the plan is null. */
  lemma NonClearingPoliciesKeepStaleValue<T>(zero: T, current: Option<T>)
    ensures ApplyTo(SetUnlessNull(Null, zero), current) == current
    ensures ApplyTo(SetIfKnown(Null), current) == current
  {
  }

  /** Including a pointer unless null and reading the pointer back as nil-to-null is the identity. */
  lemma IncludeThenReadBack<T>(c: Cfg<T>, zero: T)
    requires !c.Unknown?
    ensures FromOptional(IncludeUnlessNull(c, zero)) == c
    ensures FromOptional(IncludeIfKnown(c)) == c
  {
  }
}
