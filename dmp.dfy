/** The DefleMask instrument reader of src/utils/readDmp.ts: a DMP file of
    version 9 or 11, for the Genesis, holding an FM patch, becomes the
    record of one channel. The bytes come from an Int8Array, so each is a
    signed value in -128..127, and reading past the end yields `undefined`,
    which the record then holds. */
module Dmp {
  import opened Common

  type Int8 = x: int | -128 <= x < 128

  /** A field read from the file: `None` is the `undefined` an index past
      the end of the array yields. */
  type Field = Option<Int8>

  datatype Operator = Operator(mul: Field, tl: Field, ar: Field, d1: Field, sl: Field,
                               rr: Field, am: Field, rs: Field, det: Field, d2: Field)

  datatype Channel = Channel(name: string, st: int, fms: Field, fb: Field, al: Field, ams: Field,
                             operators: seq<Operator>)

  /** `data[i]` */
  function At(data: seq<Int8>, i: nat): (r: Field)
    ensures r.Some? <==> i < |data|
    ensures i < |data| ==> r.value == data[i]
  {
    if i < |data| then Some(data[i]) else None
  }

  /** Version 9 or 11, system Genesis, FM mode: the bytes (0x09, 0x01, 0x00)
      or (0x0B, 0x02, 0x01). */
  predicate KnownHeader(data: seq<Int8>)
  {
    || (At(data, 0) == Some(0x09) && At(data, 1) == Some(0x01) && At(data, 2) == Some(0x00))
    || (At(data, 0) == Some(0x0B) && At(data, 1) == Some(0x02) && At(data, 2) == Some(0x01))
  }

  /** The eleven bytes of operator `op` start at 7 + 11 * op; the first ten
      are read, the SSG-EG byte is not. */
  function OperatorBase(op: OperatorId): nat
  {
    op * 11 + 7
  }

  function OperatorAt(data: seq<Int8>, op: OperatorId): Operator
  {
    var o := OperatorBase(op);
    Operator(At(data, o), At(data, o + 1), At(data, o + 2), At(data, o + 3), At(data, o + 4),
             At(data, o + 5), At(data, o + 6), At(data, o + 7), At(data, o + 8), At(data, o + 9))
  }

  /** What readDmp returns, stated without its loop. */
  function DmpChannel(data: seq<Int8>, name: string): (r: Option<Channel>)
    ensures r.Some? <==> KnownHeader(data)
    ensures r.Some? ==> r.value.name == name && r.value.st == 3 && |r.value.operators| == 4
  {
    if KnownHeader(data) then
      Some(Channel(name, 3, At(data, 3), At(data, 4), At(data, 5), At(data, 6),
                   seq(4, op requires 0 <= op < 4 => OperatorAt(data, op))))
    else None
  }

  /** readDmp: the header check, then the loop that pushes the four
      operators in order. */
  method ReadDmp(data: seq<Int8>, name: string) returns (r: Option<Channel>)
    ensures r == DmpChannel(data, name)
    ensures r.None? <==> !KnownHeader(data)
    ensures r.Some? ==> r.value.name == name && r.value.st == 3 && |r.value.operators| == 4
  {
    if !KnownHeader(data) {
      return None;
    }
    var operators: seq<Operator> := [];
    var op := 0;
    while op < 4
      invariant 0 <= op <= 4
      invariant |operators| == op
      invariant forall j :: 0 <= j < op ==> operators[j] == OperatorAt(data, j)
    {
      var o := op * 11 + 7;
      operators := operators + [Operator(At(data, o), At(data, o + 1), At(data, o + 2), At(data, o + 3),
                                         At(data, o + 4), At(data, o + 5), At(data, o + 6),
                                         At(data, o + 7), At(data, o + 8), At(data, o + 9))];
      op := op + 1;
    }
    assert operators == seq(4, j requires 0 <= j < 4 => OperatorAt(data, j));
    r := Some(Channel(name, 3, At(data, 3), At(data, 4), At(data, 5), At(data, 6), operators));
  }

  // ---------------------------------------------------------------------------
  // Properties of the reader

  predicate Defined(o: Operator)
  {
    && o.mul.Some? && o.tl.Some? && o.ar.Some? && o.d1.Some? && o.sl.Some?
    && o.rr.Some? && o.am.Some? && o.rs.Some? && o.det.Some? && o.d2.Some?
  }

  /** Every field of the record is a byte of the file. */
  predicate Complete(c: Channel)
  {
    && c.fms.Some? && c.fb.Some? && c.al.Some? && c.ams.Some?
    && |c.operators| == 4 && forall op :: 0 <= op < 4 ==> Defined(c.operators[op])
  }

  /** The last byte read is byte 49: a file of 50 bytes or more with a known
      header gives a record without `undefined` in it; a shorter one leaves
      the fields past its end undefined. */
  lemma DmpComplete(data: seq<Int8>, name: string)
    requires KnownHeader(data)
    ensures Complete(DmpChannel(data, name).value) <==> |data| >= 50
  {
    var c := DmpChannel(data, name).value;
    assert c.operators[3].d2 == At(data, 49);
  }

  /** The SSG-EG byte of an operator is never read: changing it does not
      change the record. */
  lemma DmpIgnoresSsgEg(data: seq<Int8>, name: string, op: OperatorId, x: Int8)
    requires OperatorBase(op) + 10 < |data|
    ensures DmpChannel(data[OperatorBase(op) + 10 := x], name) == DmpChannel(data, name)
  {
    var d := data[OperatorBase(op) + 10 := x];
    forall i: nat | i != OperatorBase(op) + 10 ensures At(d, i) == At(data, i) {
    }
    forall j | 0 <= j < 4 ensures OperatorAt(d, j) == OperatorAt(data, j) {
      assert OperatorBase(j) + 9 < OperatorBase(op) + 10 || OperatorBase(op) + 10 < OperatorBase(j);
    }
    assert seq(4, j requires 0 <= j < 4 => OperatorAt(d, j)) == seq(4, j requires 0 <= j < 4 => OperatorAt(data, j));
  }

  // ---------------------------------------------------------------------------
  // The file a record comes from

  function FieldByte(f: Field): Int8
  {
    if f.Some? then f.value else 0
  }

  /** The eleven bytes of one operator, SSG-EG off. */
  function OperatorBytes(o: Operator): (r: seq<Int8>)
    ensures |r| == 11
  {
    [FieldByte(o.mul), FieldByte(o.tl), FieldByte(o.ar), FieldByte(o.d1), FieldByte(o.sl),
     FieldByte(o.rr), FieldByte(o.am), FieldByte(o.rs), FieldByte(o.det), FieldByte(o.d2), 0]
  }

  /** A version 11 Genesis FM file holding a complete record. */
  function DmpFile(c: Channel): (r: seq<Int8>)
    requires Complete(c)
    ensures |r| == 51 && KnownHeader(r)
  {
    [0x0B, 0x02, 0x01, FieldByte(c.fms), FieldByte(c.fb), FieldByte(c.al), FieldByte(c.ams)]
      + OperatorBytes(c.operators[0]) + OperatorBytes(c.operators[1])
      + OperatorBytes(c.operators[2]) + OperatorBytes(c.operators[3])
  }

  /** An operator whose eleven bytes sit at its base reads back. */
  lemma OperatorOfBytes(f: seq<Int8>, op: OperatorId, x: Operator)
    requires Defined(x)
    requires OperatorBase(op) + 11 <= |f| && f[OperatorBase(op)..OperatorBase(op) + 11] == OperatorBytes(x)
    ensures OperatorAt(f, op) == x
  {
    var o := OperatorBase(op);
    var b := f[o..o + 11];
    assert forall j :: 0 <= j < 10 ==> At(f, o + j) == Some(b[j]);
  }

  lemma OperatorFromFile(c: Channel, op: OperatorId)
    requires Complete(c)
    ensures OperatorAt(DmpFile(c), op) == c.operators[op]
  {
    var f := DmpFile(c);
    var h: seq<Int8> := [0x0B, 0x02, 0x01, FieldByte(c.fms), FieldByte(c.fb), FieldByte(c.al), FieldByte(c.ams)];
    var o0, o1 := OperatorBytes(c.operators[0]), OperatorBytes(c.operators[1]);
    var o2, o3 := OperatorBytes(c.operators[2]), OperatorBytes(c.operators[3]);
    assert f == h + o0 + o1 + o2 + o3;
    assert f[OperatorBase(op)..OperatorBase(op) + 11] == OperatorBytes(c.operators[op]) by {
      if op == 0 {
        assert f[7..18] == o0;
      } else if op == 1 {
        assert f[18..29] == o1;
      } else if op == 2 {
        assert f[29..40] == o2;
      } else {
        assert f[40..51] == o3;
      }
    }
    OperatorOfBytes(f, op, c.operators[op]);
  }

  /** Reading the file of a complete record of a channel gives the record
      back: the reader is the inverse of the file layout. */
  lemma DmpRoundTrip(c: Channel)
    requires Complete(c) && c.st == 3
    ensures DmpChannel(DmpFile(c), c.name) == Some(c)
  {
    var f := DmpFile(c);
    var r := DmpChannel(f, c.name).value;
    forall op | 0 <= op < 4 ensures r.operators[op] == c.operators[op] {
      OperatorFromFile(c, op);
    }
    assert r.operators == c.operators;
  }
}
