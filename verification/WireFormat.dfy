/** The text the client renders with sprintf into its 300-byte buffers. */
module WireFormat {
  import opened Events
  import opened TextBuffer

  const BUFFER_SIZE: nat := 300
  const UUID_LENGTH: nat := 36
  const COLOR_LENGTH: nat := 6

  function Digits(n: nat): string {
    if n < 10 then ["0123456789"[n]] else Digits(n / 10) + ["0123456789"[n % 10]]
  }

  /** The %d conversion. */
  function Decimal(n: int): string {
    if n < 0 then "-" + Digits(-n) else Digits(n)
  }

  /** The number that decimal digits stand for. */
  function NumberOf(digits: string): nat {
    if digits == "" then 0
    else
      var last := digits[|digits| - 1];
      10 * NumberOf(digits[..|digits| - 1]) + (if '0' <= last <= '9' then last as nat - '0' as nat else 0)
  }

  lemma DigitChar(d: nat)
    requires d < 10
    ensures var c := "0123456789"[d]; '0' <= c <= '9' && c as nat - '0' as nat == d
  {
  }

  lemma NumberOfAppend(digits: string, c: char)
    requires '0' <= c <= '9'
    ensures NumberOf(digits + [c]) == 10 * NumberOf(digits) + (c as nat - '0' as nat)
  {
    assert (digits + [c])[..|digits|] == digits;
  }

  lemma {:induction false} DigitsRead(n: nat)
    ensures NumberOf(Digits(n)) == n && Digits(n) != "" && forall i :: 0 <= i < |Digits(n)| ==> '0' <= Digits(n)[i] <= '9'
  {
    DigitChar(n % 10);
    var c := "0123456789"[n % 10];
    if n < 10 {
      assert "" + [c] == [c];
      NumberOfAppend("", c);
    } else {
      DigitsRead(n / 10);
      NumberOfAppend(Digits(n / 10), c);
    }
  }

  /** Reading a rendered number gives it back. */
  lemma DecimalReads(n: int)
    ensures n >= 0 ==> Decimal(n) != "" && Decimal(n)[0] != '-' && NumberOf(Decimal(n)) == n
    ensures n < 0 ==> Decimal(n)[0] == '-' && NumberOf(Decimal(n)[1..]) == -n
  {
    DigitsRead(if n < 0 then -n else n);
  }

  function PowerOfTen(k: nat): nat {
    if k == 0 then 1 else 10 * PowerOfTen(k - 1)
  }

  lemma {:induction false} DigitsBound(n: nat, k: nat)
    requires k > 0 && n < PowerOfTen(k)
    ensures |Digits(n)| <= k
  {
    if n >= 10 {
      assert PowerOfTen(1) == 10;
      assert n / 10 < PowerOfTen(k - 1);
      DigitsBound(n / 10, k - 1);
    }
  }

  function Field(key: string, value: string): string {
    "\"" + key + "\": " + value
  }

  function Quoted(s: string): string {
    "\"" + s + "\""
  }

  /** Fields with their keys, separated by commas. */
  function Joined(fields: seq<(string, string)>): string {
    if fields == [] then ""
    else if |fields| == 1 then Field(fields[0].0, fields[0].1)
    else Field(fields[0].0, fields[0].1) + ", " + Joined(fields[1..])
  }

  /** A message of that type with that payload. */
  function Message(kind: nat, fields: seq<(string, string)>): string {
    " { " + Field("Type", Decimal(kind)) + " , \"Payload\": { " + Joined(fields) + " } } "
  }

  function PositionFrame(color: Color, uuid: Uuid, x: int, y: int): string {
    Message(0, [("Color", Quoted(color)), ("Type", Decimal(1)), ("UUID", Quoted(uuid)), ("X", Decimal(x)), ("Y", Decimal(y))])
  }

  function TextFrame(color: Color, from: Uuid, to: Uuid, text: string, broadcast: bool): string {
    Message(2, [("Color", Quoted(color)), ("FromUUID", Quoted(from)), ("ToUUID", Quoted(to)), ("Text", Quoted(text)),
                ("Global", if broadcast then "true" else "false")])
  }

  /** text has the key with that value, followed by a comma or a blank. */
  ghost predicate Has(text: string, key: string, value: string) {
    exists i: nat :: FieldAt(text, i, key, value)
  }

  predicate FieldAt(text: string, i: nat, key: string, value: string) {
    var n := i + |Field(key, value)|;
    n < |text| && text[i..n] == Field(key, value) && text[n] in ", "
  }

  lemma HasAround(before: string, text: string, after: string, key: string, value: string)
    requires Has(text, key, value)
    ensures Has(before + text + after, key, value)
  {
    var i: nat :| FieldAt(text, i, key, value);
    var n, all := i + |Field(key, value)|, before + text + after;
    assert all[|before| + i..|before| + n] == text[i..n];
    assert FieldAt(all, |before| + i, key, value);
  }

  lemma FoundFirst(key: string, value: string, rest: string)
    requires rest != "" && rest[0] in ", "
    ensures Has(Field(key, value) + rest, key, value)
  {
    assert FieldAt(Field(key, value) + rest, 0, key, value);
  }

  /** Joined fields can all be found. */
  lemma {:induction false} JoinedHas(fields: seq<(string, string)>, k: nat)
    requires k < |fields|
    ensures Has(Joined(fields) + " } } ", fields[k].0, fields[k].1)
    decreases |fields|
  {
    var first, end := Field(fields[0].0, fields[0].1), " } } ";
    if |fields| == 1 {
      FoundFirst(fields[0].0, fields[0].1, end);
    } else {
      var rest := Joined(fields[1..]) + end;
      assert Joined(fields) + end == first + (", " + rest);
      if k == 0 {
        FoundFirst(fields[0].0, fields[0].1, ", " + rest);
      } else {
        JoinedHas(fields[1..], k - 1);
        HasAround(first + ", ", rest, "", fields[k].0, fields[k].1);
        assert first + ", " + rest + "" == first + (", " + rest);
      }
    }
  }

  lemma MessageHas(kind: nat, fields: seq<(string, string)>)
    ensures Has(Message(kind, fields), "Type", Decimal(kind))
    ensures forall k :: 0 <= k < |fields| ==> Has(Message(kind, fields), fields[k].0, fields[k].1)
  {
    var head, body := Field("Type", Decimal(kind)), Joined(fields) + " } } ";
    var tail := " , \"Payload\": { " + body;
    FoundFirst("Type", Decimal(kind), tail);
    HasAround(" { ", head + tail, "", "Type", Decimal(kind));
    assert " { " + (head + tail) + "" == Message(kind, fields);
    forall k | 0 <= k < |fields| ensures Has(Message(kind, fields), fields[k].0, fields[k].1) {
      JoinedHas(fields, k);
      HasAround(" { " + head + " , \"Payload\": { ", body, "", fields[k].0, fields[k].1);
      assert " { " + head + " , \"Payload\": { " + body + "" == Message(kind, fields);
    }
  }

  /** What a reader finds in a position frame: the message type, and each field with its own value. */
  lemma PositionFrameHas(color: Color, uuid: Uuid, x: int, y: int)
    ensures var f := PositionFrame(color, uuid, x, y);
      && Has(f, "Type", Decimal(0)) && Has(f, "Type", Decimal(1)) && Has(f, "Color", Quoted(color))
      && Has(f, "UUID", Quoted(uuid)) && Has(f, "X", Decimal(x)) && Has(f, "Y", Decimal(y))
  {
    var fields := [("Color", Quoted(color)), ("Type", Decimal(1)), ("UUID", Quoted(uuid)), ("X", Decimal(x)), ("Y", Decimal(y))];
    MessageHas(0, fields);
    assert fields[0] == ("Color", Quoted(color)) && fields[1] == ("Type", Decimal(1)) && fields[2] == ("UUID", Quoted(uuid));
    assert fields[3] == ("X", Decimal(x)) && fields[4] == ("Y", Decimal(y));
  }

  /** And in a chat frame. */
  lemma TextFrameHas(color: Color, from: Uuid, to: Uuid, text: string, broadcast: bool)
    ensures var f := TextFrame(color, from, to, text, broadcast);
      && Has(f, "Type", Decimal(2)) && Has(f, "Color", Quoted(color)) && Has(f, "FromUUID", Quoted(from))
      && Has(f, "ToUUID", Quoted(to)) && Has(f, "Text", Quoted(text)) && Has(f, "Global", if broadcast then "true" else "false")
  {
    var global := if broadcast then "true" else "false";
    var fields := [("Color", Quoted(color)), ("FromUUID", Quoted(from)), ("ToUUID", Quoted(to)), ("Text", Quoted(text)), ("Global", global)];
    MessageHas(2, fields);
    assert fields[0] == ("Color", Quoted(color)) && fields[1] == ("FromUUID", Quoted(from)) && fields[2] == ("ToUUID", Quoted(to));
    assert fields[3] == ("Text", Quoted(text)) && fields[4] == ("Global", global);
  }

  function JoinedLength(fields: seq<(string, string)>): nat {
    if fields == [] then 0 else |fields[0].0| + |fields[0].1| + 6 + JoinedLength(fields[1..])
  }

  lemma {:induction false} JoinedFits(fields: seq<(string, string)>)
    ensures |Joined(fields)| <= JoinedLength(fields)
    decreases |fields|
  {
    if fields != [] { JoinedFits(fields[1..]); }
  }

  lemma FiveFields(kind: nat, fields: seq<(string, string)>)
    requires |fields| == 5 && kind < 10
    ensures |Message(kind, fields)| <= 63 + |fields[0].0| + |fields[0].1| + |fields[1].0| + |fields[1].1|
      + |fields[2].0| + |fields[2].1| + |fields[3].0| + |fields[3].1| + |fields[4].0| + |fields[4].1|
  {
    JoinedFits(fields);
    var a, b, c, d := fields[1..], fields[1..][1..], fields[1..][1..][1..], fields[1..][1..][1..][1..];
    assert JoinedLength(d) == |fields[4].0| + |fields[4].1| + 6;
    assert JoinedLength(b) == |fields[2].0| + |fields[2].1| + 6 + JoinedLength(c);
    assert |Decimal(kind)| == 1;
  }

  lemma FrameLength(color: Color, from: Uuid, to: Uuid, text: string, broadcast: bool)
    ensures |TextFrame(color, from, to, text, broadcast)| <= 105 + |color| + |from| + |to| + |text|
  {
    FiveFields(2, [("Color", Quoted(color)), ("FromUUID", Quoted(from)), ("ToUUID", Quoted(to)), ("Text", Quoted(text)),
                   ("Global", if broadcast then "true" else "false")]);
  }

  /** Every chat frame, with its terminator, fits its buffer, whatever has been typed and whether or
      not a single recipient is named. */
  lemma TextFrameFits(color: Color, from: Uuid, to: Uuid, frames: seq<Typing>, broadcast: bool)
    requires |color| == COLOR_LENGTH && |from| == UUID_LENGTH && |to| <= UUID_LENGTH
    ensures |TextFrame(color, from, to, Edited("", frames), broadcast)| + 1 <= BUFFER_SIZE
  {
    AlwaysBounded(frames);
    FrameLength(color, from, to, Edited("", frames), broadcast);
  }

  /** So what is rendered from the input array itself fits, at any time. */
  lemma ArrayFrameFits(color: Color, from: Uuid, to: Uuid, b: Buffer, broadcast: bool)
    requires |color| == COLOR_LENGTH && |from| == UUID_LENGTH && |to| <= UUID_LENGTH && b.Valid()
    ensures |TextFrame(color, from, to, b.Contents(), broadcast)| + 1 <= BUFFER_SIZE
  {
    ArrayBounded(b);
    FrameLength(color, from, to, b.Contents(), broadcast);
  }

  /** So does every position frame, for any 32-bit coordinates. */
  lemma PositionFrameFits(color: Color, uuid: Uuid, x: int, y: int)
    requires |color| == COLOR_LENGTH && |uuid| == UUID_LENGTH
    requires -0x8000_0000 <= x < 0x8000_0000 && -0x8000_0000 <= y < 0x8000_0000
    ensures |PositionFrame(color, uuid, x, y)| + 1 <= BUFFER_SIZE
  {
    DecimalFits(x);
    DecimalFits(y);
    FiveFields(0, [("Color", Quoted(color)), ("Type", Decimal(1)), ("UUID", Quoted(uuid)), ("X", Decimal(x)), ("Y", Decimal(y))]);
  }

  lemma DecimalFits(n: int)
    requires -0x8000_0000 <= n < 0x8000_0000
    ensures |Decimal(n)| <= 11
  {
    assert PowerOfTen(5) == 100_000;
    assert PowerOfTen(10) == 10_000_000_000;
    DigitsBound(if n < 0 then -n else n, 10);
  }
}
