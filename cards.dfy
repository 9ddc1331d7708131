/** A physical card, an item or a person (src/app/core/models/item-or-person.ts).
    The record never changes after construction, so it is a value here. */
module Cards {
  import opened Text

  datatype ItemOrPerson = ItemOrPerson(name: string) {
    /** The audio asset of the card: `items/` and the lower-cased name, with
        no `.wav` extension (unlike rooms and furniture). */
    function Filename(): (f: string)
      ensures |f| == 6 + |name|
      ensures f[..6] == "items/"
      ensures forall i :: 0 <= i < |name| ==> f[6 + i] == LowerChar(name[i])
    {
      "items/" + Lower(name)
    }
  }

  /** Cards with different lower-cased names have different file names. */
  lemma FilenameInjective(a: ItemOrPerson, b: ItemOrPerson)
    requires Lower(a.name) != Lower(b.name)
    ensures a.Filename() != b.Filename()
  {
    assert a.Filename()[6..] == Lower(a.name);
    assert b.Filename()[6..] == Lower(b.name);
  }
}
