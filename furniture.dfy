/** A piece of furniture (src/app/core/models/furniture.ts). */
module Furnishings {
  import opened Text
  import opened Notes

  /** The asset a furniture piece plays.  When the name holds a `#` the
      source cuts the prefixed string at (position of `#` in the NAME) - 1,
      so the cut falls ten characters earlier than the `#` itself. */
  function FurnitureFilename(name: string): (f: string)
    ensures IndexOf(name, '#') == -1 ==> f == "furniture/" + Lower(name) + ".wav"
    ensures f <= "furniture/" + Lower(name) + ".wav"
    ensures '#' in name ==> |f| == if IndexOf(name, '#') == 0 then 0 else IndexOf(name, '#') - 1
  {
    var full := "furniture/" + Lower(name) + ".wav";
    var hash := IndexOf(name, '#');
    if hash != -1 then Prefix(full, hash - 1) else full
  }

  /** When the `#` stands at position 11 or later, the file name is
      `furniture/` and the lower-cased name cut eleven characters before the
      `#`, with no extension. */
  lemma FilenameBeforeHash(name: string)
    requires IndexOf(name, '#') >= 11
    ensures FurnitureFilename(name) == "furniture/" + Lower(name[..IndexOf(name, '#') - 11])
  {
    var k := IndexOf(name, '#');
    CutInsideBody("furniture/", Lower(name), ".wav", k - 1);
    LowerPrefix(name, k - 11);
  }

  /** Cutting `head + body + tail` inside `body` keeps `head` and a prefix of `body`. */
  lemma CutInsideBody(head: string, body: string, tail: string, end: int)
    requires |head| <= end <= |head| + |body|
    ensures Prefix(head + body + tail, end) == head + body[..end - |head|]
  {
    assert (head + body + tail)[..end] == head + body[..end - |head|];
  }

  /** The two numbered dining chairs ("Dining Room Chair #1 [111]" and
      "#2 [112]") share the truncated, extension-less file name
      `furniture/dining `. */
  lemma DiningChairFilename(n: string)
    requires |n| >= 19 && n[..19] == "Dining Room Chair #"
    ensures FurnitureFilename(n) == "furniture/dining "
  {
    DiningHash(n);
    FilenameBeforeHash(n);
    DiningLower(n);
  }

  lemma DiningHash(n: string)
    requires |n| >= 19 && n[..19] == "Dining Room Chair #"
    ensures IndexOf(n, '#') == 18
  {
    assert n[18] == n[..19][18] == '#';
    assert n[..18] == n[..19][..18] == "Dining Room Chair ";
    HashAt(n, 18);
  }

  lemma DiningLower(n: string)
    requires |n| >= 19 && n[..19] == "Dining Room Chair #"
    ensures Lower(n[..7]) == "dining "
  {
    assert n[..7] == n[..19][..7] == "Dining ";
    LowerDining();
  }

  lemma HashAt(n: string, k: nat)
    requires k < |n| && n[k] == '#' && '#' !in n[..k]
    ensures IndexOf(n, '#') == k
  {
  }

  lemma LowerDining()
    ensures Lower("Dining ") == "dining "
  {
    var l := Lower("Dining ");
    assert l[0] == LowerChar('D') == 'd';
    assert forall i :: 1 <= i < 7 ==> l[i] == "Dining "[i];
  }

  /** `toString()`: the code right-aligned in three columns, a colon, the name. */
  function FurnitureLabel(code: int, name: string): (s: string)
    ensures EndsWith(s, ": " + name)
  {
    EndsWithAppend(PadStart(IntToString(code), 3), ": " + name);
    PadStart(IntToString(code), 3) + (": " + name)
  }

  /** A three-digit code is printed unpadded, in front of the name. */
  lemma FurnitureLabelThreeDigits(code: int, name: string)
    requires 100 <= code < 1000
    ensures FurnitureLabel(code, name) == NatToString(code) + ": " + name
  {
    ThreeDigits(code);
    var digits := NatToString(code);
    assert IntToString(code) == digits;
    assert PadStart(digits, 3) == digits;
    assert FurnitureLabel(code, name) == digits + (": " + name);
  }

  /** The label is the code right-aligned in three columns, `": "` and the name. */
  lemma FurnitureLabelAligned(code: int, name: string)
    ensures Aligned(FurnitureLabel(code, name), 3, code, name)
  {
    PadStartAligned(3, code, name);
  }

  /** Codes of one and two digits are printed after two spaces and one. */
  lemma FurnitureLabelShortCodes(code: int, name: string)
    requires 0 <= code < 100
    ensures code < 10 ==> FurnitureLabel(code, name) == [' ', ' ', DigitChar(code)] + ": " + name
    ensures 10 <= code ==> FurnitureLabel(code, name) == [' '] + NatToString(code) + ": " + name
  {
    if code >= 10 {
      TwoDigits(code);
    }
  }

  /** Two pieces with the same label have the same code and name. */
  lemma FurnitureLabelInjective(c1: int, n1: string, c2: int, n2: string)
    requires c1 >= 0 && c2 >= 0 && FurnitureLabel(c1, n1) == FurnitureLabel(c2, n2)
    ensures c1 == c2 && n1 == n2
  {
    FurnitureLabelAligned(c1, n1);
    FurnitureLabelAligned(c2, n2);
    AlignedInjective(FurnitureLabel(c1, n1), 3, c1, n1, c2, n2);
  }

  class Furniture {
    const name: string
    const code: int
    var note: Note?
    const filename: string

    constructor (name: string, code: int)
      ensures this.name == name && this.code == code
      ensures note == null
      ensures filename == FurnitureFilename(name)
    {
      this.name := name;
      this.code := code;
      this.note := null;
      this.filename := FurnitureFilename(name);
    }

    function ToString(): (s: string)
      ensures Aligned(s, 3, code, name)
    {
      FurnitureLabelAligned(code, name);
      FurnitureLabel(code, name)
    }

    /** `toJSON()` is `toString()`. */
    function ToJSON(): (s: string)
      ensures s == ToString()
    {
      ToString()
    }
  }
}
