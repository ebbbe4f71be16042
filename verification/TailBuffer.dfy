// _Tail: a buffer that keeps the last bytes of a command's output. Texts are of
// one-byte characters, so a text is its own encoding.
module TailBuffer {

  // Python's b[-n:], which for n == 0 is all of b.
  function Tail(b: string, n: nat): string {
    if n == 0 || |b| <= n then b else b[|b| - n..]
  }

  // What a buffer of n bytes is for.
  function LastBytes(b: string, n: nat): string {
    if |b| <= n then b else b[|b| - n..]
  }

  function Joined(chunks: seq<string>): string {
    if chunks == [] then [] else Joined(chunks[..|chunks| - 1]) + chunks[|chunks| - 1]
  }

  lemma JoinedAppend(chunks: seq<string>, text: string)
    ensures Joined(chunks + [text]) == Joined(chunks) + text
    ensures Joined([text]) == text
  {
    assert (chunks + [text])[..|chunks|] == chunks;
    assert [text][..0] == [] && Joined([]) + text == text;
  }

  // kept is an end of all that is long enough to show the last n bytes.
  ghost predicate Keeps(kept: string, all: string, n: nat) {
    && |kept| <= |all| && kept == all[|all| - |kept|..]
    && (|kept| == |all| || |kept| >= n > 0)
  }

  lemma KeepsAppend(kept: string, all: string, text: string, n: nat)
    requires Keeps(kept, all, n)
    ensures Keeps(kept + text, all + text, n)
  {
    assert kept + text == (all + text)[|all| - |kept|..];
  }

  lemma KeepsTail(kept: string, all: string, n: nat)
    requires Keeps(kept, all, n)
    ensures Keeps(Tail(kept, n), all, n)
  {
    var t := Tail(kept, n);
    assert t == all[|all| - |t|..];
  }

  // Cutting early loses nothing of the end.
  lemma KeepsEnd(kept: string, all: string, n: nat)
    requires Keeps(kept, all, n)
    ensures n > 0 ==> Tail(kept, n) == LastBytes(all, n)
    ensures n == 0 ==> Tail(kept, n) == all
  {
    var t := Tail(kept, n);
    assert t == all[|all| - |t|..];
    assert |t| == |all| ==> t == all;
  }

  class TailText {
    const max: nat
    var chunks: seq<string>
    var total: nat
    ghost var all: string   // everything ever appended

    ghost predicate Valid()
      reads this
    {
      && total == |Joined(chunks)| && Keeps(Joined(chunks), all, max)
      && (max > 0 ==> total <= 4 * max)
    }

    constructor (max: nat)
      ensures Valid() && this.max == max && all == []
    {
      this.max, chunks, total, all := max, [], 0, [];
    }

    method Append(text: string)
      requires Valid()
      modifies this
      ensures Valid() && all == old(all) + text
    {
      if text == [] {
        assert all + text == all;
        return;
      }
      KeepsAppend(Joined(chunks), all, text, max);
      JoinedAppend(chunks, text);
      all := all + text;
      chunks := chunks + [text];
      total := total + |text|;
      if total > max * 4 {
        KeepsTail(Joined(chunks), all, max);
        var tail := Tail(Joined(chunks), max);
        JoinedAppend([], tail);
        chunks := [tail];
        total := |tail|;
      }
    }

    // The last `max` bytes exactly when the buffer has room for any.
    method Value() returns (v: string)
      requires Valid()
      ensures v == LastBytes(all, max) <==> max > 0 || all == []
      ensures max == 0 ==> v == all
    {
      var joined := Joined(chunks);
      KeepsEnd(joined, all, max);
      v := if |joined| <= max then joined else Tail(joined, max);
    }
  }
}
