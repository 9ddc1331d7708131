/** A room (src/app/core/models/room.ts).  Its name and code never change;
    its furniture list and its lock are changed by the game. */
module Rooms {
  import opened Text

  /** The room's audio asset. */
  function RoomFilename(name: string): (f: string)
    ensures |f| == 10 + |name|
    ensures f[..6] == "rooms/"
    ensures forall i :: 0 <= i < |name| ==> f[6 + i] == LowerChar(name[i])
    ensures EndsWith(f, ".wav")
  {
    "rooms/" + Lower(name) + ".wav"
  }

  /** `toString()`: padded code, name, the furniture codes, and a lock marker. */
  function RoomLabel(code: int, name: string, furnitureCodes: seq<int>, locked: bool): (s: string)
    ensures RoomJSON(code, name) + " - Contains: " <= s
  {
    var head := PadStart(IntToString(code), 2) + ": " + name + " - Contains: ";
    var tail := Join(furnitureCodes, ", ") + (if locked then " [LOCKED]" else "");
    assert head == RoomJSON(code, name) + " - Contains: ";
    assert head <= head + tail;
    head + tail
  }

  /** The label ends with the lock marker exactly when the room is locked. */
  lemma RoomLabelLockMarker(code: int, name: string, furnitureCodes: seq<int>, locked: bool)
    ensures EndsWith(RoomLabel(code, name, furnitureCodes, locked), " [LOCKED]") <==> locked
  {
    var head := PadStart(IntToString(code), 2) + ": " + name + " - Contains: ";
    assert head[|head| - 1] == ' ';
    assert RoomLabel(code, name, furnitureCodes, locked)
      == head + (Join(furnitureCodes, ", ") + (if locked then " [LOCKED]" else ""));
    MarkerAtEnd(head, furnitureCodes, locked);
  }

  /** After a head ending in a space, the joined codes end with the marker
      only when it is appended. */
  lemma MarkerAtEnd(head: string, furnitureCodes: seq<int>, locked: bool)
    requires |head| > 0 && head[|head| - 1] == ' '
    ensures EndsWith(head + (Join(furnitureCodes, ", ") + (if locked then " [LOCKED]" else "")), " [LOCKED]") <==> locked
  {
    var codes := Join(furnitureCodes, ", ");
    if locked {
      EndsWithAppend(head + codes, " [LOCKED]");
      assert head + (codes + " [LOCKED]") == head + codes + " [LOCKED]";
    } else {
      var s := head + (codes + "");
      assert s == head + codes;
      if furnitureCodes != [] {
        JoinEndsWithDigit(furnitureCodes, ", ");
        assert s[|s| - 1] == codes[|codes| - 1];
      } else {
        assert s[|s| - 1] == head[|head| - 1];
      }
      NotMarked(s);
    }
  }

  /** A string whose last character is not `]` does not end with the marker. */
  lemma NotMarked(s: string)
    requires |s| > 0 && s[|s| - 1] != ']'
    ensures !EndsWith(s, " [LOCKED]")
  {
    if |s| >= 9 {
      assert s[|s| - 9..][8] == s[|s| - 1];
    }
  }

  /** A non-empty join ends with a digit. */
  lemma JoinEndsWithDigit(xs: seq<int>, sep: string)
    requires xs != []
    ensures |Join(xs, sep)| > 0 && IsDigit(Join(xs, sep)[|Join(xs, sep)| - 1])
  {
    JoinEndsWithLast(xs, sep);
    var codes := Join(xs, sep);
    var last := IntToString(xs[|xs| - 1]);
    assert codes[|codes| - 1] == last[|last| - 1];
  }

  /** `toJSON()`: the code right-aligned in two columns, a colon, the name. */
  function RoomJSON(code: int, name: string): (s: string)
    ensures EndsWith(s, ": " + name)
  {
    EndsWithAppend(PadStart(IntToString(code), 2), ": " + name);
    PadStart(IntToString(code), 2) + (": " + name)
  }

  /** The JSON text is the code right-aligned in two columns, `": "` and the name. */
  lemma RoomJSONAligned(code: int, name: string)
    ensures Aligned(RoomJSON(code, name), 2, code, name)
  {
    PadStartAligned(2, code, name);
  }

  /** A one-digit room code is printed after one space. */
  lemma RoomJSONOneDigit(code: int, name: string)
    requires 0 <= code < 10
    ensures RoomJSON(code, name) == [' ', DigitChar(code)] + ": " + name
  {
  }

  /** Two rooms with the same JSON text have the same code and name. */
  lemma RoomJSONInjective(c1: int, n1: string, c2: int, n2: string)
    requires c1 >= 0 && c2 >= 0 && RoomJSON(c1, n1) == RoomJSON(c2, n2)
    ensures c1 == c2 && n1 == n2
  {
    RoomJSONAligned(c1, n1);
    RoomJSONAligned(c2, n2);
    AlignedInjective(RoomJSON(c1, n1), 2, c1, n1, c2, n2);
  }

  /** A two-digit room code is printed unpadded. */
  lemma RoomJSONTwoDigits(code: int, name: string)
    requires 10 <= code < 100
    ensures RoomJSON(code, name) == NatToString(code) + ": " + name
  {
    TwoDigits(code);
    assert PadStart(IntToString(code), 2) == NatToString(code);
  }

  class Room {
    const name: string
    const code: int
    var furnitureCodes: seq<int>
    var locked: bool
    const filename: string

    constructor (name: string, furnitureCodes: seq<int>, code: int)
      ensures this.name == name && this.code == code
      ensures this.furnitureCodes == furnitureCodes
      ensures !locked
      ensures filename == RoomFilename(name)
    {
      this.name := name;
      this.code := code;
      this.furnitureCodes := furnitureCodes;
      this.locked := false;
      this.filename := RoomFilename(name);
    }

    /** `includes`: whether the room lists the code. */
    predicate ContainsFurniture(furnitureCode: int)
      reads this
    {
      furnitureCode in furnitureCodes
    }

    function ToString(): (s: string)
      reads this
      ensures EndsWith(s, " [LOCKED]") <==> locked
    {
      RoomLabelLockMarker(code, name, furnitureCodes, locked);
      RoomLabel(code, name, furnitureCodes, locked)
    }

    function ToJSON(): (s: string)
      ensures Aligned(s, 2, code, name)
    {
      RoomJSONAligned(code, name);
      RoomJSON(code, name)
    }
  }
}
