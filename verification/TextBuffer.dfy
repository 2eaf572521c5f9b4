/** The chat input buffer, a NUL-terminated char array edited in place. */
module TextBuffer {

  const MAX_INPUT_CHARS: nat := 105

  /** The string that the buffer stands for, under a typed key and under backspace. */
  function Typed(s: string, key: int): string {
    if 32 <= key <= 125 && |s| < MAX_INPUT_CHARS then s + [key as char] else s
  }

  /** The keys of one frame, up to the first that reports "no more". */
  function TypedAll(s: string, keys: seq<int>): string
    decreases |keys|
  {
    if keys == [] || keys[0] <= 0 then s else TypedAll(Typed(s, keys[0]), keys[1..])
  }

  /** The characters that the keys of one frame ask for: the printable ones before the first key that
      reports "no more". */
  function Accepted(keys: seq<int>): string
    decreases |keys|
  {
    if keys == [] || keys[0] <= 0 then ""
    else (if 32 <= keys[0] <= 125 then [keys[0] as char] else "") + Accepted(keys[1..])
  }

  function Take(s: string, n: nat): string {
    if |s| <= n then s else s[..n]
  }

  lemma TypedThenMore(s: string, key: int, more: string)
    requires |s| <= MAX_INPUT_CHARS && 32 <= key <= 125
    ensures Take(Typed(s, key) + more, MAX_INPUT_CHARS) == Take(s + ([key as char] + more), MAX_INPUT_CHARS)
  {
    if |s| < MAX_INPUT_CHARS {
      assert (s + [key as char]) + more == s + ([key as char] + more);
    } else {
      TakeFull(s, more);
      TakeFull(s, [key as char] + more);
    }
  }

  lemma TakeFull(s: string, more: string)
    requires |s| == MAX_INPUT_CHARS
    ensures Take(s + more, MAX_INPUT_CHARS) == s
  {
  }

  /** Typing key by key adds the accepted characters as far as there is room. */
  lemma {:induction false} TypedAllIs(s: string, keys: seq<int>)
    requires |s| <= MAX_INPUT_CHARS
    ensures TypedAll(s, keys) == Take(s + Accepted(keys), MAX_INPUT_CHARS)
    decreases |keys|
  {
    if keys != [] && keys[0] > 0 {
      var rest := Accepted(keys[1..]);
      TypedAllIs(Typed(s, keys[0]), keys[1..]);
      if 32 <= keys[0] <= 125 {
        TypedThenMore(s, keys[0], rest);
      } else {
        assert "" + rest == rest;
      }
    } else {
      assert s + "" == s;
    }
  }

  /** Without a key that reports "no more", these are the printable keys, in order. */
  lemma {:induction false} AcceptedAll(keys: seq<int>)
    requires forall i :: 0 <= i < |keys| ==> 32 <= keys[i] <= 125
    ensures |Accepted(keys)| == |keys| && forall i :: 0 <= i < |keys| ==> Accepted(keys)[i] == keys[i] as char
    decreases |keys|
  {
    if keys != [] { AcceptedAll(keys[1..]); }
  }

  function Erased(s: string): string {
    if s == "" then s else s[..|s| - 1]
  }

  /** What one frame does to the text: its keys, and its backspace if that was pressed. */
  datatype Typing = Typing(keys: seq<int>, backspace: bool)

  function EditedOnce(s: string, typing: Typing): string {
    var t := TypedAll(s, typing.keys);
    if typing.backspace then Erased(t) else t
  }

  function Edited(s: string, frames: seq<Typing>): string {
    if frames == [] then s else EditedOnce(Edited(s, frames[..|frames| - 1]), frames[|frames| - 1])
  }

  /** What a C string function reads: the characters before the first NUL. */
  function CString(chars: seq<char>): string {
    if chars == [] || chars[0] == '\0' then "" else [chars[0]] + CString(chars[1..])
  }

  predicate Printable(c: char) {
    32 as char <= c <= 125 as char
  }

  lemma {:induction false} CStringOf(chars: seq<char>, n: nat)
    requires n < |chars| && chars[n] == '\0'
    requires forall i :: 0 <= i < n ==> chars[i] != '\0'
    ensures CString(chars) == chars[..n]
  {
    if n > 0 {
      CStringOf(chars[1..], n - 1);
      assert chars[..n] == [chars[0]] + chars[1..][..n - 1];
    }
  }

  class Buffer {
    const textmessage: array<char>
    var letterCount: int

    ghost predicate Valid()
      reads this, textmessage
    {
      && textmessage.Length == MAX_INPUT_CHARS + 1
      && 0 <= letterCount <= MAX_INPUT_CHARS
      && textmessage[letterCount] == '\0'
      && forall i :: 0 <= i < letterCount ==> Printable(textmessage[i])
    }

    /** The text as the rest of the program sees it. */
    ghost function Contents(): string
      reads textmessage
    {
      CString(textmessage[..])
    }

    lemma ContentsAre()
      requires Valid()
      ensures Contents() == textmessage[..letterCount]
    {
      CStringOf(textmessage[..], letterCount);
    }

    constructor ()
      ensures Valid() && Contents() == "" && fresh(textmessage)
    {
      textmessage := new char[MAX_INPUT_CHARS + 1](_ => '\0');
      letterCount := 0;
      new;
      ContentsAre();
    }

    method TypeKey(key: int)
      requires Valid()
      modifies this, textmessage
      ensures Valid() && Contents() == Typed(old(Contents()), key)
      ensures Contents() == if 32 <= key <= 125 && |old(Contents())| < 105 then old(Contents()) + [key as char] else old(Contents())
    {
      ContentsAre();
      if key >= 32 && key <= 125 && letterCount < MAX_INPUT_CHARS {
        textmessage[letterCount] := key as char;
        textmessage[letterCount + 1] := '\0';
        letterCount := letterCount + 1;
      }
      ContentsAre();
    }

    method TypeKeys(keys: seq<int>)
      requires Valid()
      modifies this, textmessage
      ensures Valid() && Contents() == TypedAll(old(Contents()), keys)
      ensures Contents() == Take(old(Contents()) + Accepted(keys), 105)
    {
      ContentsAre();
      TypedAllIs(Contents(), keys);
      var i := 0;
      while i < |keys| && keys[i] > 0
        invariant Valid() && i <= |keys|
        invariant TypedAll(Contents(), keys[i..]) == TypedAll(old(Contents()), keys)
      {
        assert keys[i..][1..] == keys[i + 1..];
        TypeKey(keys[i]);
        i := i + 1;
      }
    }

    method Backspace()
      requires Valid()
      modifies this, textmessage
      ensures Valid() && Contents() == Erased(old(Contents()))
      ensures old(Contents()) == "" ==> Contents() == ""
      ensures old(Contents()) != "" ==> exists c :: old(Contents()) == Contents() + [c]
    {
      ContentsAre();
      letterCount := letterCount - 1;
      if letterCount < 0 { letterCount := 0; }
      textmessage[letterCount] := '\0';
      ContentsAre();
      if old(Contents()) != "" { assert old(Contents()) == Contents() + [old(Contents())[|Contents()|]]; }
    }

    /** The text handling of one frame. */
    method EditFrame(typing: Typing)
      requires Valid()
      modifies this, textmessage
      ensures Valid() && Contents() == EditedOnce(old(Contents()), typing)
      ensures !typing.backspace ==> Contents() == Take(old(Contents()) + Accepted(typing.keys), 105)
      ensures typing.backspace ==>
        var typed := Take(old(Contents()) + Accepted(typing.keys), 105);
        if typed == "" then Contents() == "" else Contents() == typed[..|typed| - 1]
    {
      TypeKeys(typing.keys);
      if typing.backspace { Backspace(); }
    }

    /** Frame after frame: sending a chat line leaves the buffer as it is. */
    method EditFrames(frames: seq<Typing>)
      requires Valid()
      modifies this, textmessage
      ensures Valid() && Contents() == Edited(old(Contents()), frames)
    {
      for i := 0 to |frames|
        invariant Valid() && Contents() == Edited(old(Contents()), frames[..i])
      {
        EditFrame(frames[i]);
        assert frames[..i + 1][..i] == frames[..i];
      }
      assert frames[..|frames|] == frames;
    }
  }

  /** Backspace in the frame of a key takes that key back, and no more. */
  lemma BackspaceUndoes(s: string, key: int)
    requires 32 <= key <= 125 && |s| < 105
    ensures Edited(s, [Typing([key], false)]) == s + [key as char]
    ensures Edited(s, [Typing([key], true)]) == s
    ensures Edited(s, [Typing([key], false), Typing([], true)]) == s
  {
    var one, both := [Typing([key], false)], [Typing([key], false), Typing([], true)];
    assert one[..0] == [] && [Typing([key], true)][..0] == [] && both[..1] == one;
    TypedAllIs(s, [key]);
    assert Accepted([key]) == [key as char] by { assert [key][1..] == []; }
  }

  // Every run of frames ----------------------------------------------------------------------------

  predicate Fits(s: string) {
    |s| <= MAX_INPUT_CHARS && forall i :: 0 <= i < |s| ==> Printable(s[i])
  }

  lemma {:induction false} TypedAllFits(s: string, keys: seq<int>)
    requires Fits(s)
    ensures Fits(TypedAll(s, keys))
    decreases |keys|
  {
    if keys != [] && keys[0] > 0 { TypedAllFits(Typed(s, keys[0]), keys[1..]); }
  }

  /** Whatever is typed, the text has at most 105 characters, all of them printable. */
  lemma {:induction false} AlwaysBounded(frames: seq<Typing>)
    ensures Fits(Edited("", frames))
  {
    if frames != [] {
      var before, last := frames[..|frames| - 1], frames[|frames| - 1];
      AlwaysBounded(before);
      TypedAllFits(Edited("", before), last.keys);
    }
  }

  /** And so it is in the array, at any time. */
  lemma ArrayBounded(b: Buffer)
    requires b.Valid()
    ensures Fits(b.Contents())
  {
    b.ContentsAre();
  }
}
