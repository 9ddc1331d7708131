/** The hint bundle attached to a furniture piece (src/app/core/models/note.ts).
    Its facets are independent; several can be set on one note. */
module Notes {
  import opened Wrappers
  import opened Cards

  /** The value of a note's fields.  `notIn` and `lookIn` name the furniture
      they point at by its code. */
  datatype NoteView = NoteView(
    money: bool,
    ask: bool,
    item: Option<ItemOrPerson>,
    person: Option<ItemOrPerson>,
    clue: int,
    trapdoor: bool,
    secret: Option<string>,
    notIn: Option<int>,
    lookIn: Option<int>)

  /** The fields of a freshly constructed note. */
  const BlankNote := NoteView(false, false, None, None, 0, false, None, None, None)

  class Note {
    var money: bool
    var ask: bool
    var item: Option<ItemOrPerson>
    var person: Option<ItemOrPerson>
    var clue: int
    var trapdoor: bool
    var secret: Option<string>
    var notIn: Option<int>
    var lookIn: Option<int>

    /** Every flag false, the clue count 0, every reference absent. */
    constructor ()
      ensures !money && !ask && !trapdoor
      ensures clue == 0
      ensures item == None && person == None
      ensures secret == None && notIn == None && lookIn == None
      ensures View() == BlankNote
    {
      money := false;
      ask := false;
      item := None;
      person := None;
      clue := 0;
      trapdoor := false;
      secret := None;
      notIn := None;
      lookIn := None;
    }

    function View(): NoteView
      reads this
    {
      NoteView(money, ask, item, person, clue, trapdoor, secret, notIn, lookIn)
    }
  }
}
