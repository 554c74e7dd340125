/**
  Errors of the transaction runner as a tree instead of formatted strings.
  `Tagged` is `fmt.Errorf("%w [tag]", e)`, `Merged` is `fmt.Errorf("%w [tag] %w [tag2]", e, x)`;
  both keep their causes inspectable. `RetryLimit` and `Recovered` format their payload with
  `%v`, so they do NOT wrap it.
*/
module Errors {
  import opened Wrappers

  /** The bracketed phase tag appended by `fmt.Errorf`. */
  datatype Tag = ContextDoneTag | BeginTag | DoTag | CommitTag | RecoverTag | RollbackTag | ExecTag | CloseTag

  datatype Error =
    | Backend(name: string)                 // an error produced by a driver or by the work function
    | NilArgument(site: string)             // errors.Join(ErrNilArgument, "[site]")
    | NotImplemented(site: string)          // errors.Join(ErrNotImplemented, "[site]")
    | Message(text: string)                 // a plain errors.New(text)
    | Recovered(panic: string)              // a recovered panic formatted with its stack
    | RetryLimit(limit: int, last: Error)   // "reached retry limit (limit), last error: %v"
    | Tagged(cause: Error, tag: Tag)
    | Merged(cause: Error, tag: Tag, secondary: Error, secondaryTag: Tag)

  /** `errors.Is(e, x)` for the `%w` chain: `x` is `e` or is reachable through wrapped causes. */
  predicate Wraps(e: Error, x: Error)
  {
    e == x ||
    match e
    case Tagged(c, _) => Wraps(c, x)
    case Merged(c, _, s, _) => Wraps(c, x) || Wraps(s, x)
    case _ => false
  }

  /** `errors.Is(e, ErrNilArgument)`. */
  predicate IsNilArgument(e: Error)
  {
    match e
    case NilArgument(_) => true
    case Tagged(c, _) => IsNilArgument(c)
    case Merged(c, _, s, _) => IsNilArgument(c) || IsNilArgument(s)
    case _ => false
  }

  /** `errors.Is(e, ErrNotImplemented)`. */
  predicate IsNotImplemented(e: Error)
  {
    match e
    case NotImplemented(_) => true
    case Tagged(c, _) => IsNotImplemented(c)
    case Merged(c, _, s, _) => IsNotImplemented(c) || IsNotImplemented(s)
    case _ => false
  }

  /** The phase tag written right after the primary cause, if `e` carries one. */
  function PhaseOf(e: Error): Option<Tag>
  {
    match e
    case Tagged(_, t) => Some(t)
    case Merged(_, t, _, _) => Some(t)
    case _ => None
  }

  /** The answer of one scripted backend call: success, an error return, or a panic. */
  datatype Answer = Ok | Fail(error: Error) | Panic(value: string)
}
