/**
 * Go values the registration path works with: byte strings, optional
 * (nil-able) values and error values, with `errors.Is` over wrapped errors.
 */
module Base {

  /** A Go byte. */
  newtype Byte = b: int | 0 <= b < 256

  /** A Go `string` or `[]byte` holding user input; `len` of it is its length in bytes. */
  type Bytes = seq<Byte>

  /** A value that may be nil in Go (a pointer, a slice, an error). */
  datatype Option<+T> = None | Some(value: T)

  /**
   * A Go `error`. The sentinel errors the code compares against are their own
   * constructors; any other error is known only by its `Error()` text, and
   * `Wrapped` is an error that wraps another one (as `fmt.Errorf("%w")` does).
   */
  datatype Error =
    | MismatchedHashAndPassword          // bcrypt.ErrMismatchedHashAndPassword
    | NoRows                             // sql.ErrNoRows
    | DuplicateEmail                     // data.ErrDuplicateEmail
    | UserNotFound                       // data.ErrUserNotFound
    | Opaque(text: string)
    | Wrapped(text: string, inner: Error)

  /** `err.Error()`. */
  function Text(err: Error): string {
    match err
    case MismatchedHashAndPassword => "crypto/bcrypt: hashedPassword is not the hash of the given password"
    case NoRows => "sql: no rows in result set"
    case DuplicateEmail => "duplicate email"
    case UserNotFound => "user not found"
    case Opaque(t) => t
    case Wrapped(t, _) => t
  }

  /** The chain of errors `errors.Is` walks: the error itself, then what it wraps. */
  function Chain(err: Error): (chain: seq<Error>)
    ensures |chain| >= 1 && chain[0] == err
  {
    match err
    case Wrapped(_, inner) => [err] + Chain(inner)
    case _ => [err]
  }

  /** `errors.Is(err, target)`: `err` or an error it wraps is `target`. */
  predicate Is(err: Error, target: Error) {
    err == target || (err.Wrapped? && Is(err.inner, target))
  }

  /** `errors.Is` finds exactly the errors on the unwrap chain. */
  lemma {:induction false} IsMeansOnChain(err: Error, target: Error)
    ensures Is(err, target) <==> target in Chain(err)
  {
    match err
    case Wrapped(_, inner) =>
      IsMeansOnChain(inner, target);
      assert Chain(err) == [err] + Chain(inner);
    case _ =>
  }
}
