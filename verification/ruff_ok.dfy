/**
 The `RuffOk` value object: one string field, `message`, a guarded setter and
 two renderers that join the message with a timestamp.

 The clock reading is not modelled: every renderer takes the timestamp text
 `ts` as a parameter. Python's `!r` quoting of a string is not modelled
 either: `Repr` takes the quoting function `quote` as a parameter and says
 nothing about what it produces.
 */
module Ruff {

  /** The dataclass default of the `message` field. */
  const DefaultMessage: string := "Ruff is OK"

  /** The text carried by the exception the setter raises. */
  const EmptyMessageText: string := "Message cannot be empty."

  /** The literal placed between the message and the timestamp by `__str__`. */
  const AtSeparator: string := " at "

  /** The three literal pieces of `__repr__`. */
  const ReprOpen: string := "RuffOk(message="
  const ReprTimestamp: string := ", timestamp="
  const ReprClose: string := ")"

  /** The only exception the object raises. */
  datatype Error = ValueError(text: string)

  /** The outcome of a call that may raise. */
  datatype Result<+T> = Ok(value: T) | Err(error: Error)

  /** An argument that may be omitted. */
  datatype Option<+T> = None | Some(value: T)

  /** The object itself. The timestamp is computed on demand, never stored. */
  datatype RuffOk = RuffOk(message: string)

  /** Python's truth value of a `str`: only the empty string is falsy. */
  predicate Truthy(s: string) {
    |s| > 0
  }

  /** The state the setter is meant to keep: a non-empty message. */
  predicate HasMessage(o: RuffOk) {
    Truthy(o.message)
  }

  /**
   Construction through the generated dataclass initializer. An omitted
   argument takes the default; a supplied one is stored as given, even the
   empty string, because construction performs no check.
   */
  function Construct(message: Option<string>): (o: RuffOk)
    ensures message.None? ==> o.message == "Ruff is OK" && HasMessage(o)
    ensures message.Some? ==> o.message == message.value
  {
    match message
    case None => RuffOk(DefaultMessage)
    case Some(m) => RuffOk(m)
  }

  /**
   `set_message`: raises `ValueError` on a falsy argument, otherwise the
   object with its message replaced.
   */
  function SetMessage(self: RuffOk, message: string): (r: Result<RuffOk>)
    ensures r.Err? <==> message == []
    ensures r.Err? ==> r.error == ValueError("Message cannot be empty.")
    ensures r.Ok? ==> r.value == RuffOk(message) && HasMessage(r.value)
  {
    if !Truthy(message) then
      Err(ValueError(EmptyMessageText))
    else
      Ok(self.(message := message))
  }

  /**
   The object as seen by a caller after `set_message` returns or raises.
   The raise happens before the assignment, so a failed call leaves the
   object as it was.
   */
  function StateAfter(self: RuffOk, message: string): (after: RuffOk)
    ensures message == [] ==> after == self
    ensures message != [] ==> after.message == message
    ensures HasMessage(self) ==> HasMessage(after)
  {
    match SetMessage(self, message)
    case Ok(updated) => updated
    case Err(_) => self
  }

  /** `__str__`: the message, then " at ", then the timestamp. */
  function Str(self: RuffOk, ts: string): (s: string)
    ensures |s| == |self.message| + |AtSeparator| + |ts|
    ensures s[..|self.message|] == self.message
    ensures s[|self.message|..|self.message| + |AtSeparator|] == AtSeparator
    ensures s[|self.message| + |AtSeparator|..] == ts
  {
    self.message + AtSeparator + ts
  }

  /**
   `__repr__`: the quoted message between "RuffOk(message=" and
   ", timestamp=", then the timestamp unquoted, then ")".
   */
  function Repr(self: RuffOk, ts: string, quote: string -> string): (s: string)
    ensures var q, open, mid := quote(self.message), |ReprOpen|, |ReprTimestamp|;
      && |s| == open + |q| + mid + |ts| + |ReprClose|
      && s[..open] == ReprOpen
      && s[open..open + |q|] == q
      && s[open + |q|..open + |q| + mid] == ReprTimestamp
      && s[open + |q| + mid..|s| - |ReprClose|] == ts
      && s[|s| - |ReprClose|..] == ReprClose
  {
    ReprOpen + quote(self.message) + ReprTimestamp + ts + ReprClose
  }

  /** Two renderings of one object share the message and separator and differ exactly when their timestamps do. */
  lemma StrDiffersOnlyInTimestamp(self: RuffOk, ts1: string, ts2: string)
    ensures Str(self, ts1)[..|self.message| + 4] == Str(self, ts2)[..|self.message| + 4]
    ensures Str(self, ts1)[..|self.message| + 4] == self.message + " at "
    ensures Str(self, ts1) == Str(self, ts2) <==> ts1 == ts2
  {
  }

  /** A rendering determines the message and the timestamp once the message length is known. */
  lemma StrRecoversParts(a: RuffOk, b: RuffOk, ts1: string, ts2: string)
    requires |a.message| == |b.message|
    requires Str(a, ts1) == Str(b, ts2)
    ensures a == b && ts1 == ts2
  {
  }

  /** Without the length, the rendering is ambiguous: a message may itself contain " at ". */
  lemma StrIsNotInjective()
    ensures Str(RuffOk("a"), "b at c") == Str(RuffOk("a at b"), "c")
    ensures RuffOk("a") != RuffOk("a at b")
  {
  }

  /** `__repr__` sees the message only through its quoted form; the timestamp is copied verbatim. */
  lemma ReprDeterminedByQuotedMessage(a: RuffOk, b: RuffOk, ts1: string, ts2: string, quote: string -> string)
    requires |quote(a.message)| == |quote(b.message)|
    ensures Repr(a, ts1, quote) == Repr(b, ts2, quote) <==> quote(a.message) == quote(b.message) && ts1 == ts2
  {
  }

  /** Two sequential `set_message` calls: the later successful one wins, and a repeated call changes nothing. */
  lemma SetMessageLastWriteWins(self: RuffOk, m1: string, m2: string)
    ensures m2 != [] ==> StateAfter(StateAfter(self, m1), m2) == StateAfter(self, m2)
    ensures StateAfter(StateAfter(self, m1), m1) == StateAfter(self, m1)
  {
  }

  /** Construction admits the empty message that the setter refuses; also the basic usage scenarios of the object. */
  lemma ConstructionSkipsValidation(ts: string)
    ensures !HasMessage(Construct(Some("")))
    ensures SetMessage(Construct(Some("Custom")), "").Err?
    ensures StateAfter(Construct(Some("Custom")), "").message == "Custom"
    ensures Str(Construct(None), ts)[..14] == "Ruff is OK at "
    ensures Str(StateAfter(Construct(Some("A")), "B"), ts)[..5] == "B at "
  {
  }
}
