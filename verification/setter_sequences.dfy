/**
 Any number of `set_message` calls in a row, each failure caught by the
 caller. The object keeps a non-empty message across the whole sequence,
 and it ends up holding the last non-empty argument.
 */
module SetterSequences {
  import opened Ruff

  /** The object after calling `set_message` with each argument in order, from the first. */
  function Replay(self: RuffOk, messages: seq<string>): (after: RuffOk)
    ensures HasMessage(self) ==> HasMessage(after)
    ensures (exists i :: 0 <= i < |messages| && messages[i] != []) ==> HasMessage(after)
    decreases |messages|
  {
    if |messages| == 0 then self
    else Replay(StateAfter(self, messages[0]), messages[1..])
  }

  /** Reference definition: the last non-empty argument, read from the end, or `fallback` if there is none. */
  function LastNonEmpty(messages: seq<string>, fallback: string): (m: string)
    ensures m == fallback || (m in messages && m != [])
    decreases |messages|
  {
    if |messages| == 0 then fallback
    else if messages[|messages| - 1] != [] then messages[|messages| - 1]
    else LastNonEmpty(messages[..|messages| - 1], fallback)
  }

  /** Taking the first argument into the fallback does not change the last non-empty argument. */
  lemma {:induction false} LastNonEmptyShiftsFirst(messages: seq<string>, fallback: string)
    requires |messages| > 0
    ensures LastNonEmpty(messages, fallback)
         == LastNonEmpty(messages[1..], if messages[0] != [] then messages[0] else fallback)
    decreases |messages|
  {
    var n := |messages|;
    var f := if messages[0] != [] then messages[0] else fallback;
    if n == 1 {
      assert messages[1..] == [];
    } else if messages[n - 1] != [] {
      assert messages[1..][|messages[1..]| - 1] == messages[n - 1];
    } else {
      var init := messages[..n - 1];
      LastNonEmptyShiftsFirst(init, fallback);
      assert init[1..] == messages[1..][..|messages[1..]| - 1];
    }
  }

  /** Replaying the calls leaves exactly the last non-empty argument, or the original message if all failed. */
  lemma {:induction false} ReplayIsLastNonEmpty(self: RuffOk, messages: seq<string>)
    ensures Replay(self, messages).message == LastNonEmpty(messages, self.message)
    decreases |messages|
  {
    if |messages| > 0 {
      ReplayIsLastNonEmpty(StateAfter(self, messages[0]), messages[1..]);
      LastNonEmptyShiftsFirst(messages, self.message);
    }
  }

  /** Calls that all fail leave the object untouched. */
  lemma {:induction false} ReplayOfFailuresIsIdentity(self: RuffOk, messages: seq<string>)
    requires forall i :: 0 <= i < |messages| ==> messages[i] == []
    ensures Replay(self, messages) == self
    decreases |messages|
  {
    if |messages| > 0 {
      ReplayOfFailuresIsIdentity(self, messages[1..]);
    }
  }
}
