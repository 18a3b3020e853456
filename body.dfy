/**
 * Request and response bodies as byte streams read front to back: the bounded
 * read of io.ReadAll(io.LimitReader(...)) and the bounded drain of drainAndClose.
 */
module Body {

  newtype byte = b: int | 0 <= b < 256

  /** drainAndClose reads at most 4 << 10 bytes. */
  const DrainLimit: nat := 4096

  function Min(a: int, b: int): int {
    if a <= b then a else b
  }

  /** How many bytes a read through io.LimitReader(_, n) obtains from `avail` unread bytes. */
  function LimitedLength(avail: nat, n: int): (k: nat)
    ensures k <= avail
    ensures n <= 0 ==> k == 0
    ensures n > 0 ==> k == Min(n, avail)
  {
    if n <= 0 then 0 else Min(n, avail)
  }

  /** The bytes io.ReadAll(io.LimitReader(_, n)) returns on a stream whose unread part is `rest`. */
  function Capture(rest: seq<byte>, n: int): seq<byte> {
    rest[..LimitedLength(|rest|, n)]
  }

  /**
   * The captured part and what is left unread put back together give the whole
   * stream, and the captured part is never longer than the limit.
   */
  lemma CaptureReplay(rest: seq<byte>, n: int)
    ensures Capture(rest, n) + rest[|Capture(rest, n)|..] == rest
    ensures |Capture(rest, n)| <= |rest|
    ensures n <= 0 ==> Capture(rest, n) == []
    ensures n >= |rest| ==> Capture(rest, n) == rest
    ensures 0 <= n <= |rest| ==> |Capture(rest, n)| == n
  {
  }

  /** A body stream: the bytes it carries and how far they have been read. */
  class Reader {
    const data: seq<byte>
    var pos: nat
    var closed: bool

    ghost predicate Valid()
      reads this
    {
      pos <= |data|
    }

    /** The bytes a reader of this stream still obtains. */
    function Unread(): seq<byte>
      reads this
      requires Valid()
    {
      data[pos..]
    }

    /** bytes.NewReader(data), also the shape io.MultiReader gives to a concatenation. */
    constructor (data: seq<byte>)
      ensures Valid() && this.data == data && Unread() == data && !closed
    {
      this.data := data;
      pos := 0;
      closed := false;
    }

    /** io.ReadAll(io.LimitReader(this, n)): reads up to n bytes and returns them. */
    method ReadAllLimited(n: int) returns (chunk: seq<byte>)
      requires Valid()
      modifies this`pos
      ensures Valid()
      ensures chunk == Capture(old(Unread()), n)
      ensures Unread() == old(Unread())[|chunk|..]
    {
      ghost var start := pos;
      chunk := [];
      var left := n;
      while left > 0 && pos < |data|
        invariant start <= pos <= |data|
        invariant chunk == data[start..pos]
        invariant left == n - (pos - start)
        invariant pos - start <= (if n > 0 then n else 0)
        decreases |data| - pos
      {
        chunk := chunk + [data[pos]];
        pos := pos + 1;
        left := left - 1;
      }
      assert pos - start == LimitedLength(|data| - start, n);
      assert data[start..][..pos - start] == data[start..pos];
    }

    /** drainAndClose: discards at most DrainLimit bytes, then closes the stream. */
    method DrainAndClose() returns (drained: nat)
      requires Valid()
      modifies this`pos, this`closed
      ensures Valid() && closed
      ensures drained <= DrainLimit
      ensures drained == Min(DrainLimit, |old(Unread())|)
      ensures Unread() == old(Unread())[drained..]
    {
      var chunk := ReadAllLimited(DrainLimit);
      drained := |chunk|;
      closed := true;
    }
  }
}
