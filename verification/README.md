# RuffOk, modelled in Dafny

`RuffOk` is a dataclass that represents a "Ruff OK" response. It has one
field, `message`, whose default is `"Ruff is OK"`. It has a setter,
`set_message`, that raises `ValueError("Message cannot be empty.")` for an
empty (falsy) argument and otherwise replaces the message. It has two
renderers that read the UTC clock each time they are called:

- `__str__` gives `message + " at " + timestamp`;
- `__repr__` gives `RuffOk(message=<repr of message>, timestamp=<timestamp>)`.

`src/ruff_ko.py` is a copy of `src/ruff_ok.py` with the same behaviour. It
differs in formatting, lint directives and import order. It also has no
module docstring and no docstring on `set_message`. One model covers both
files. The matching lines are listed below:

| `src/ruff_ok.py` | `src/ruff_ko.py` | what |
|---|---|---|
| 11 | 11 | default `message` |
| 17-19 | 17-19 | `__str__` |
| 21-23 | 21-23 | `__repr__` |
| 25-34 | 25-30 | `set_message` (raise at 32-33 and 26-27) |

Files:

- `ruff_ok.dfy`, module `Ruff`: the immutable record `RuffOk(message)`,
  construction, the setter as a function returning a `Result`, the object
  state a caller sees after the setter returns or raises, both renderers, and
  the lemmas about them.
- `setter_sequences.dfy`, module `SetterSequences`: any number of setter
  calls in a row. The non-empty invariant holds across all of them, and the
  final message is the last non-empty argument. That result is proved
  against a reference definition that reads the arguments from the end.

The clock is a parameter: each renderer takes the timestamp text `ts`.
Python's `!r` quoting is also a parameter: `Repr` takes a function
`quote: string -> string` and assumes nothing about it.

Construction does not validate: `RuffOk("")` is accepted
(src/ruff_ok.py:11), while `set_message("")` raises (src/ruff_ok.py:32-33).
So a non-empty message is guaranteed only for the default object and after a
successful setter call. See `Ruff.ConstructionSkipsValidation`.

## Model

| member | source | states |
|---|---|---|
| `Ruff.Construct` | src/ruff_ok.py:11 | An omitted argument gives the message "Ruff is OK", which is non-empty. A supplied argument is stored unchanged, including "". Same as src/ruff_ko.py:11. |
| `Ruff.SetMessage` | src/ruff_ok.py:32-34 | The call fails exactly when the argument is empty, and the failure is ValueError("Message cannot be empty."). On success the object holds exactly the new message, which is non-empty. Same as src/ruff_ko.py:26-30. |
| `Ruff.StateAfter` | src/ruff_ok.py:32-34 | The raise comes before the assignment, so a failed call leaves the object unchanged. A successful call leaves the new message. A non-empty message stays non-empty whether the call succeeds or fails. Same as src/ruff_ko.py:26-30. |
| `Ruff.Str` | src/ruff_ok.py:17-19 | The rendering is the message, then " at ", then the timestamp, with nothing else; its length is the sum of the three. Same as src/ruff_ko.py:17-19. |
| `Ruff.Repr` | src/ruff_ok.py:21-23 | The rendering is "RuffOk(message=", then the quoted message, then ", timestamp=", then the unquoted timestamp, then ")". Same as src/ruff_ko.py:21-23. |
| `Ruff.StrDiffersOnlyInTimestamp` | src/ruff_ok.py:17-19 | Two renderings of the same object share the prefix message + " at ". They are equal if and only if their timestamps are equal. |
| `Ruff.StrRecoversParts` | src/ruff_ko.py:17-19 | If two renderings are equal and the messages have the same length, the objects and the timestamps are equal. |
| `Ruff.StrIsNotInjective` | src/ruff_ok.py:19 | Without a known message length the rendering is ambiguous: "a" at "b at c" and "a at b" at "c" render the same. |
| `Ruff.ReprDeterminedByQuotedMessage` | src/ruff_ko.py:21-23 | When the quoted forms have equal length, two debug renderings are equal if and only if the quoted messages are equal and the timestamps are equal. The message enters only through its quoted form. |
| `Ruff.SetMessageLastWriteWins` | src/ruff_ko.py:25-30 | After two setter calls, a successful second call decides the message. Repeating a call changes nothing. |
| `Ruff.ConstructionSkipsValidation` | src/ruff_ok.py:7-11 | Construction accepts "", which the setter rejects. Setting "" on an object built with "Custom" leaves "Custom". The default object renders with the prefix "Ruff is OK at ". After setting "B" on an object built with "A", the rendering starts with "B at ". |
| `SetterSequences.Replay` | src/ruff_ok.py:32-34 | After any sequence of setter calls whose failures are caught, a message that was non-empty stays non-empty. If any argument was non-empty, the final message is non-empty. |
| `SetterSequences.ReplayIsLastNonEmpty` | src/ruff_ok.py:32-34 | After any sequence of setter calls, the message is the last non-empty argument, or the original message if every call failed. |
| `SetterSequences.ReplayOfFailuresIsIdentity` | src/ruff_ko.py:26-27 | A sequence of calls that all raise leaves the object exactly as it was. |

## Left out

- Reading the clock (`_isoformat_timestamp`, src/ruff_ok.py:13-15). This is nondeterministic I/O, so each renderer takes the timestamp text `ts` as a parameter. Each Python call reads the clock afresh, so `Str` and `Repr` are modelled as separate renderings, each with its own `ts`.
- The syntax of the timestamp. `isoformat()` is a library call that produces an ISO 8601 date-time with a `+00:00` offset. Nothing in the repository implements it.
- Python's `!r` quoting and escaping of a string. This is a language feature, so it is the uninterpreted parameter `quote`.
- The dataclass-generated methods (`__eq__`, and `__init__` beyond storing the argument or the default). Datatype equality stands in for `__eq__`.
- Runtime type checks. Python does not enforce the `str` annotation, and a non-`str` argument to the setter falls under Python's general truthiness rules. The model only takes strings.
- The lint and formatting directives in src/ruff_ko.py (lines 1-2 and 31). They have no behaviour.
- In-place update and aliasing. `set_message` assigns to the object (src/ruff_ok.py:34) and returns `None`, so every alias sees the change. The public `message` attribute can also be assigned directly, which skips the check. The model has no aliasing: `SetMessage` and `StateAfter` return a new immutable value, and direct assignment to the attribute is not modelled.
- Lone surrogates. A Python `str` can hold code points U+D800 to U+DFFF, which a Dafny `char` cannot. No proved property depends on this, because the model only concatenates strings and tests them for emptiness.
