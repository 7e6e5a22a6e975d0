/**
 * The two independently written parsers are the same function: server by slices and absolute
 * positions, client by offsets and relative lengths.
 */
module Agreement {
  import opened Wrappers
  import opened Text
  import opened Wire
  import S = ServerParser
  import C = ClientParser

  /** A relative outcome at `pos`, with its length turned into the position that follows. */
  function Advance(r: Outcome, pos: nat): Outcome {
    if r.Done? then Done(r.value, pos + r.consumed) else r
  }

  lemma FindFromTypeByte(buf: seq<Byte>)
    requires buf != [] && buf[0] != CR
    ensures FindCrlf(buf, 0) == FindCrlf(buf, 1)
  {
  }

  lemma ScalarsAgree(buf: seq<Byte>, pos: nat)
    requires 0 < pos < |buf| && buf[pos] != ARRAY
    ensures S.Scalar(buf, pos) == Advance(C.ElementAt(buf, pos), pos)
  {
    hide Decode, PyInt, FindCrlf;
  }

  lemma {:induction false} ArraysAgree(buf: seq<Byte>)
    requires buf != [] && buf[0] == ARRAY
    ensures S.Array(buf) == C.ArrayAt(buf, 0)
    decreases |buf|, 2
  {
    hide Decode, PyInt, FindCrlf;
    FindFromTypeByte(buf);
    var cr := FindCrlf(buf, 0);
    if cr.Some? && PyInt(buf[1..cr.value]).Some? && PyInt(buf[1..cr.value]).value >= 0 {
      ElementsAgree(buf, cr.value + 2, PyInt(buf[1..cr.value]).value, []);
    }
  }

  lemma {:induction false} ElementsAgree(buf: seq<Byte>, pos: nat, n: nat, acc: seq<Value>)
    requires 0 < pos <= |buf|
    ensures S.Elements(buf, pos, n, acc) == C.ElementsAt(buf, 0, pos, n, acc)
    decreases |buf|, 1, n
  {
    hide Decode, PyInt, FindCrlf, S.Scalar;
    if n > 0 && pos < |buf| {
      ElementAgrees(buf, pos);
      match C.ElementAt(buf, pos)
      case Done(v, c) => ElementsAgree(buf, pos + c, n - 1, acc + [v]);
      case _ =>
    }
  }

  lemma {:induction false} ElementAgrees(buf: seq<Byte>, pos: nat)
    requires 0 < pos < |buf|
    ensures S.Element(buf, pos) == Advance(C.ElementAt(buf, pos), pos)
    decreases |buf|, 0
  {
    hide Decode, PyInt, FindCrlf, S.Scalar;
    if buf[pos] == ARRAY {
      ArraysAgree(buf[pos..]);
      C.Shift(buf, pos, 0);
      assert C.ElementAt(buf[pos..], 0) == C.ArrayAt(buf[pos..], 0);
    } else {
      ScalarsAgree(buf, pos);
    }
  }

  lemma ScalarMessagesAgree(buf: seq<Byte>)
    requires buf != [] && IsType(buf[0]) && buf[0] != ARRAY
    ensures S.Message(buf) == C.TryParse(buf)
  {
    hide Decode, PyInt, FindCrlf, S.Array, C.ArrayAt;
    FindFromTypeByte(buf);
  }

  lemma ArrayMessagesAgree(buf: seq<Byte>)
    requires buf != [] && buf[0] == ARRAY
    ensures S.Message(buf) == C.TryParse(buf)
  {
    hide Decode, PyInt, FindCrlf, S.Array, C.ArrayAt;
    ArraysAgree(buf);
  }

  /**
   * On every buffer that starts with a RESP type byte, server and client return the same value and
   * length, or both need more bytes, or both raise for the same reason.
   */
  lemma ParsersAgree(buf: seq<Byte>)
    requires buf == [] || IsType(buf[0])
    ensures S.Message(buf) == C.TryParse(buf)
  {
    hide Decode, PyInt, FindCrlf, S.Array, S.Scalar, C.ArrayAt;
    if buf != [] && buf[0] == ARRAY {
      ArrayMessagesAgree(buf);
    } else if buf != [] {
      ScalarMessagesAgree(buf);
    }
  }
}
