/** The closed set of error values that travel through the pipeline: the four
    sentinels of the backing service, an error wrapping another (`%w`), any
    other error (repository, transport, JSON decoding, an unwrapped
    `fmt.Errorf`), and the three typed errors of the gateway client. */
module Errors {
  import opened Shared
  import opened Strings
  import opened Strconv

  /** The package-level sentinel errors of the backing service. */
  datatype Sentinel = ErrTaskNotFound | ErrEmptySlice | ErrTooFewTasks | ErrInvalidInput

  function SentinelText(s: Sentinel): string {
    match s
    case ErrTaskNotFound => "task not found"
    case ErrEmptySlice => "there is no tasks"
    case ErrTooFewTasks => "there are too few tasks"
    case ErrInvalidInput => "invalid input"
  }

  datatype Error =
    | SentinelErr(sentinel: Sentinel)
      /** `fmt.Errorf("%w: <detail>", cause)` */
    | Wrapped(cause: Error, detail: string)
      /** an error that is no sentinel and wraps nothing */
    | Other(text: string)
      /** the gateway client's `*NotFoundError` */
    | NotFoundError(msg: string)
      /** the gateway client's `*StatusError` */
    | StatusError(code: int, msg: string)
      /** the gateway client's `*ContentTypeError` */
    | ContentTypeError(got: string)

  /** The end of the `Unwrap` chain: the error a run of `%w` wraps started from. */
  function Root(err: Error): (root: Error)
    ensures !root.Wrapped?
  {
    match err
    case Wrapped(cause, _) => Root(cause)
    case _ => err
  }

  /** `errors.Is(err, target)` for a sentinel target: walk the `Unwrap`
      chain and compare each error with the target. It holds exactly when the
      chain ends in that sentinel, so no error is two sentinels at once. */
  predicate Is(err: Error, target: Sentinel): (b: bool)
    ensures b <==> Root(err) == SentinelErr(target)
  {
    err == SentinelErr(target) || (err.Wrapped? && Is(err.cause, target))
  }

  const StatusPrefix: string := "status "
  const ContentTypePrefix: string := "unexpected content type: "

  /** `err.Error()`: a sentinel's text; for a `%w` wrap, the cause's text, a
      colon and the detail; the client's `NotFoundError` its `Msg`,
      `StatusError` "status <code>: <msg>" and `ContentTypeError` the fixed
      prefix and the header it got. */
  function Message(err: Error): (r: string)
    ensures err.Wrapped? ==> HasPrefix(r, Message(err.cause) + ": ") && |r| > |Message(err.cause)|
    ensures err.NotFoundError? ==> r == err.msg
    ensures err.StatusError? ==> HasPrefix(r, StatusPrefix)
    ensures err.ContentTypeError? ==> HasPrefix(r, ContentTypePrefix) && r[|ContentTypePrefix|..] == err.got
  {
    match err
    case SentinelErr(s) => SentinelText(s)
    case Wrapped(cause, detail) => Message(cause) + ": " + detail
    case Other(text) => text
    case NotFoundError(msg) => msg
    case StatusError(code, msg) => StatusPrefix + Itoa(code) + ": " + msg
    case ContentTypeError(got) => ContentTypePrefix + got
  }

  /** The position of the first `c` in `s`, if any. */
  function IndexOf(s: string, c: char): (r: Option<nat>)
    ensures r.Some? ==> r.value < |s| && s[r.value] == c
  {
    if s == [] then None
    else if s[0] == c then Some(0)
    else match IndexOf(s[1..], c)
      case Some(k) => Some(k + 1)
      case None => None
  }

  /** Reads a `StatusError` message back into its code and its text: the code
      is the number between the prefix and the first colon. */
  function ParseStatusMessage(text: string): Option<(int, string)> {
    if !HasPrefix(text, StatusPrefix) then None
    else
      var rest := text[|StatusPrefix|..];
      match IndexOf(rest, ':')
      case None => None
      case Some(k) =>
        if k + 1 < |rest| && rest[k + 1] == ' ' then
          match ParseInt(rest[..k])
          case Some(code) => Some((code, rest[k + 2..]))
          case None => None
        else None
  }

  lemma {:induction false} IndexOfAfter(p: string, c: char, rest: string)
    requires forall i | 0 <= i < |p| :: p[i] != c
    ensures IndexOf(p + [c] + rest, c) == Some(|p|)
  {
    if p != [] {
      assert (p + [c] + rest)[1..] == p[1..] + [c] + rest;
      IndexOfAfter(p[1..], c, rest);
    }
  }

  /** The rendered `StatusError` determines both its code and its message. */
  lemma StatusMessageRoundTrip(code: int, msg: string)
    ensures ParseStatusMessage(Message(StatusError(code, msg))) == Some((code, msg))
  {
    var digits := Itoa(code);
    var text := Message(StatusError(code, msg));
    ItoaCharacters(code);
    ParseIntItoa(code);
    assert text == StatusPrefix + (digits + [':'] + (" " + msg));
    var rest := text[|StatusPrefix|..];
    assert rest == digits + [':'] + (" " + msg);
    IndexOfAfter(digits, ':', " " + msg);
    assert rest[..|digits|] == digits;
    assert rest[|digits| + 2..] == msg;
  }

  /** However many times an error is wrapped, its text begins with the text
      of the error at the end of its chain: a sentinel's wording survives
      `%w`. */
  lemma {:induction false} MessageStartsWithRoot(err: Error)
    ensures HasPrefix(Message(err), Message(Root(err)))
  {
    match err
    case Wrapped(cause, detail) =>
      MessageStartsWithRoot(cause);
      assert Message(err) == Message(cause) + (": " + detail);
    case _ =>
  }

  /** Every message the backing service produces by wrapping `ErrInvalidInput`
      starts with that sentinel's text, so `errors.Is` and the text agree. */
  lemma WrappedInvalidInputText(detail: string)
    ensures Is(Wrapped(SentinelErr(ErrInvalidInput), detail), ErrInvalidInput)
    ensures HasPrefix(Message(Wrapped(SentinelErr(ErrInvalidInput), detail)), "invalid input: ")
  {
  }
}
