/** Panel command lists. A list is a byte string of entries `op, count,
    count parameter bytes`, closed by the pair `0xFF, 0xFF`; the panel driver
    sends each entry's op as a command and its parameters as data. */
module Commands {
  import opened Hardware

  /** MIPI DCS command codes the panels use. */
  const INVOFF: byte := 0x20
  const INVON: byte := 0x21
  const GAMMASET: byte := 0x26

  /** The terminator byte; a list ends at the first entry `0xFF, 0xFF`. */
  const END: byte := 0xFF

  datatype Command = Command(op: byte, params: seq<byte>)

  /** A command fits an entry when its count byte has the delay flag (0x80)
      clear, which also keeps the entry from reading as the terminator. */
  predicate Encodable(cmds: seq<Command>)
  {
    forall i :: 0 <= i < |cmds| ==> |cmds[i].params| < 0x80
  }

  /** The entries of `cmds`, without the terminator. */
  function Entries(cmds: seq<Command>): seq<byte>
    requires Encodable(cmds)
  {
    if |cmds| == 0 then []
    else [cmds[0].op, |cmds[0].params| as byte] + cmds[0].params + Entries(cmds[1..])
  }

  /** `cmds` as a terminated command list. */
  function Encode(cmds: seq<Command>): (bytes: seq<byte>)
    requires Encodable(cmds)
    ensures |bytes| >= 2 && bytes[|bytes| - 2..] == [END, END]
  {
    Entries(cmds) + [END, END]
  }

  /** Read a command list the way the panel driver walks it: stop at the
      terminator, and ignore whatever follows it. A list that runs out of
      bytes, or an entry with the delay flag set, gives None. */
  function Decode(bytes: seq<byte>): Option<seq<Command>>
    decreases |bytes|
  {
    if |bytes| < 2 then None
    else if bytes[0] == END && bytes[1] == END then Some([])
    else if bytes[1] >= 0x80 then None
    else
      var n := bytes[1] as int;
      if |bytes| < 2 + n then None
      else match Decode(bytes[2 + n..])
        case None => None
        case Some(rest) => Some([Command(bytes[0], bytes[2..2 + n])] + rest)
  }

  /** The count byte of a short parameter list reads back as its length. */
  lemma CountByte(n: nat)
    requires n < 0x80
    ensures (n as byte) as int == n && n as byte < 0x80
  {
  }

  /** Reading one entry in front of a list. */
  lemma DecodeEntry(c: Command, rest: seq<byte>)
    requires |c.params| < 0x80
    ensures Decode([c.op, |c.params| as byte] + c.params + rest) ==
      match Decode(rest)
      case None => None
      case Some(tail) => Some([c] + tail)
  {
    var n := |c.params|;
    var bytes := [c.op, n as byte] + c.params + rest;
    CountByte(n);
    assert bytes[1] == n as byte;
    assert bytes[2..2 + n] == c.params;
    assert bytes[2 + n..] == rest;
  }

  /** Reading back an encoded list gives the commands it was made from. */
  lemma {:induction false} DecodeEncode(cmds: seq<Command>)
    requires Encodable(cmds)
    ensures Decode(Encode(cmds)) == Some(cmds)
  {
    if |cmds| > 0 {
      var c := cmds[0];
      assert Encodable(cmds[1..]) by {
        forall i | 0 <= i < |cmds[1..]| ensures |cmds[1..][i].params| < 0x80 {
          assert cmds[1..][i] == cmds[i + 1];
        }
      }
      DecodeEncode(cmds[1..]);
      var head := [c.op, |c.params| as byte] + c.params;
      assert Entries(cmds) == head + Entries(cmds[1..]);
      assert Encode(cmds) == head + Encode(cmds[1..]) by {
        Regroup(head, Entries(cmds[1..]), [END, END]);
      }
      DecodeEntry(c, Encode(cmds[1..]));
      assert [c] + cmds[1..] == cmds;
    }
  }

  /** Slicing a concatenation inside or after its first part. */
  lemma SliceOfAppend(a: seq<byte>, b: seq<byte>, i: nat, j: nat)
    requires i <= j <= |a|
    ensures (a + b)[i..j] == a[i..j]
    ensures (a + b)[j..] == a[j..] + b
  {
  }

  /** Bytes after the terminator do not change what a list reads as. */
  lemma {:induction false} DecodeIgnoresTail(bytes: seq<byte>, tail: seq<byte>)
    requires Decode(bytes).Some?
    ensures Decode(bytes + tail) == Decode(bytes)
  {
    var all := bytes + tail;
    assert all[0] == bytes[0] && all[1] == bytes[1];
    if !(bytes[0] == END && bytes[1] == END) {
      var n := bytes[1] as int;
      assert bytes[1] < 0x80 && |bytes| >= 2 + n;
      DecodeIgnoresTail(bytes[2 + n..], tail);
      SliceOfAppend(bytes, tail, 2, 2 + n);
    }
  }
}
