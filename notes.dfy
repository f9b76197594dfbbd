/**
 * js/notes.js: sticky notes. Notes are appended to a stored list and edited
 * in place by id; search, statistics, the colour palette and the clamp that
 * keeps a dragged note inside its container are derived from it.
 */
module Notes {
  import opened Base
  import opened Utils

  const NotesKey := "freelanceos_notes"

  datatype Position = Position(x: real, y: real)

  /** A note; `updatedAt` is missing until the content is first edited. */
  datatype Note = Note(id: int, content: string, color: string, position: Position, createdAt: Date, updatedAt: Option<Date>)

  datatype ColorConfig = ColorConfig(name: string, bg: string, border: string)

  datatype NoteStats = NoteStats(totalNotes: nat, totalCharacters: nat, averageLength: nat)

  /** The six note colours, 'yellow' first. */
  const Palette: seq<ColorConfig> := [
    ColorConfig("yellow", "#fef3c7", "#f59e0b"),
    ColorConfig("green", "#dcfce7", "#16a34a"),
    ColorConfig("blue", "#dbeafe", "#2563eb"),
    ColorConfig("pink", "#fce7f3", "#db2777"),
    ColorConfig("purple", "#f3e8ff", "#9333ea"),
    ColorConfig("orange", "#fed7aa", "#ea580c")
  ]

  function Named(color: string): ColorConfig -> bool {
    (c: ColorConfig) => c.name == color
  }

  /** The colour configuration createNoteElement draws a note with: its own colour's, else the first palette entry. */
  function ColorFor(color: string): (r: ColorConfig)
    ensures r in Palette
    ensures (exists k :: 0 <= k < |Palette| && Palette[k].name == color) ==> r.name == color
    ensures (forall k :: 0 <= k < |Palette| ==> Palette[k].name != color) ==> r == Palette[0]
  {
    var k := FindIndex(Palette, Named(color));
    if k.Some? then Palette[k.value] else Palette[0]
  }

  function HasId(id: int): Note -> bool {
    (n: Note) => n.id == id
  }

  /** The note addNote creates. */
  function NewNote(id: int, now: Date): Note {
    Note(id, "", "yellow", Position(20.0, 20.0), now, None)
  }

  /** `Math.max(0, Math.min(v, max))`: the drag constraint on one coordinate. */
  function Clamp(v: real, max: real): (r: real)
    ensures r >= 0.0
    ensures max >= 0.0 ==> r <= max
    ensures 0.0 <= v <= max ==> r == v
    ensures max < 0.0 ==> r == 0.0
  {
    var m := if v < max then v else max;
    if m > 0.0 then m else 0.0
  }

  /**
   * The position onMouseMove / onTouchMove gives the dragged note: the
   * mouse or touch position relative to the container, less the grab offset, clamped so the
   * note stays inside the container.
   */
  function DragPosition(clientX: real, clientY: real, container: Position, containerWidth: real, containerHeight: real,
                        offset: Position, noteWidth: real, noteHeight: real): (r: Position)
    ensures 0.0 <= r.x && 0.0 <= r.y
    ensures noteWidth <= containerWidth ==> r.x + noteWidth <= containerWidth
    ensures noteHeight <= containerHeight ==> r.y + noteHeight <= containerHeight
  {
    Position(Clamp(clientX - container.x - offset.x, containerWidth - noteWidth),
             Clamp(clientY - container.y - offset.y, containerHeight - noteHeight))
  }

  /** The lower-cased content contains the lower-cased query. */
  function ContentMatches(query: string): Note -> bool {
    (n: Note) => Includes(ToLower(n.content), ToLower(query))
  }

  /** The notes searchNotes renders: all of them for an empty query, else the matching ones in order. */
  function SearchNotes(notes: seq<Note>, query: string): (r: seq<Note>)
    ensures query == "" ==> r == notes
    ensures |r| <= |notes|
  {
    if query == "" then notes else Filter(notes, ContentMatches(query))
  }

  /** A non-empty query keeps exactly the notes whose lower-cased content contains it lower-cased. */
  lemma SearchNotesIff(notes: seq<Note>, query: string, n: Note)
    requires query != ""
    ensures n in SearchNotes(notes, query) <==> n in notes && OccursIn(ToLower(query), ToLower(n.content))
  {
    FilterMember(notes, ContentMatches(query), n);
    IncludesIff(ToLower(n.content), ToLower(query));
  }

  /** getNoteStats' totalCharacters: the sum of the contents' lengths in UTF-16 code units. */
  function TotalCharacters(notes: seq<Note>): nat {
    if notes == [] then 0 else Utf16Length(notes[0].content) + TotalCharacters(notes[1..])
  }

  lemma {:induction false} TotalCharactersConcat(a: seq<Note>, b: seq<Note>)
    ensures TotalCharacters(a + b) == TotalCharacters(a) + TotalCharacters(b)
  {
    if a == [] {
      assert a + b == b;
    } else {
      assert (a + b)[1..] == a[1..] + b;
      TotalCharactersConcat(a[1..], b);
    }
  }

  /** A freshly added (empty) note leaves the character count as it was. */
  lemma AddNoteKeepsCharacters(notes: seq<Note>, id: int, now: Date)
    ensures TotalCharacters(notes + [NewNote(id, now)]) == TotalCharacters(notes)
  {
    TotalCharactersConcat(notes, [NewNote(id, now)]);
    assert [NewNote(id, now)][1..] == [];
  }

  /** `Math.round(a / b)` for a >= 0 and b > 0: the nearest integer, halves rounded up. */
  function RoundDiv(a: nat, b: nat): (r: nat)
    requires b > 0
    ensures 2 * a < 2 * r * b + b
    ensures 2 * r * b <= 2 * a + b
  {
    var q := (2 * a + b) / (2 * b);
    assert (2 * a + b) == q * (2 * b) + (2 * a + b) % (2 * b);
    q
  }

  /** getNoteStats. */
  function GetNoteStats(notes: seq<Note>): (r: NoteStats)
    ensures r.totalNotes == |notes|
    ensures r.totalCharacters == TotalCharacters(notes)
    ensures |notes| == 0 ==> r.averageLength == 0
    ensures |notes| > 0 ==> 2 * r.totalCharacters < (2 * r.averageLength + 1) * |notes|
                            && (2 * r.averageLength - 1) * |notes| <= 2 * r.totalCharacters
  {
    var total := TotalCharacters(notes);
    NoteStats(|notes|, total, if |notes| > 0 then RoundDiv(total, |notes|) else 0)
  }

  class StickyNotes {
    var notes: seq<Note>
    var store: map<string, Item<seq<Note>>>

    /** new StickyNotes(): loadNotes. */
    constructor (store: map<string, Item<seq<Note>>>)
      ensures notes == Load(store, NotesKey, [])
      ensures this.store == store
    {
      notes := Load(store, NotesKey, []);
      this.store := store;
    }

    /** addNote: an empty yellow note at (20, 20) goes at the end, and the list is stored. */
    method AddNote(id: int, now: Date)
      modifies this
      ensures notes == old(notes) + [NewNote(id, now)]
      ensures notes[..|old(notes)|] == old(notes)
      ensures store == old(store)[NotesKey := Parsed(notes)]
    {
      notes := notes + [NewNote(id, now)];
      store := store[NotesKey := Parsed(notes)];
    }

    /** deleteNote: when confirmed, drop every note with that id and store the rest. */
    method DeleteNote(id: int, confirmed: bool)
      modifies this
      ensures !confirmed ==> notes == old(notes) && store == old(store)
      ensures confirmed ==> notes == Filter(old(notes), Not(HasId(id)))
                            && store == old(store)[NotesKey := Parsed(notes)]
      ensures confirmed ==> forall n :: n in notes ==> n.id != id
    {
      if confirmed {
        notes := Filter(notes, Not(HasId(id)));
        store := store[NotesKey := Parsed(notes)];
      }
    }

    /**
     * updateNoteContent: the first note with that id gets the new content and
     * an updatedAt stamp, and the list is stored; an unknown id changes nothing.
     */
    method UpdateNoteContent(id: int, content: string, now: Date)
      modifies this
      ensures |notes| == |old(notes)|
      ensures FindIndex(old(notes), HasId(id)).None? ==> notes == old(notes) && store == old(store)
      ensures FindIndex(old(notes), HasId(id)).Some? ==>
                var i := FindIndex(old(notes), HasId(id)).value;
                notes == old(notes)[i := old(notes)[i].(content := content, updatedAt := Some(now))]
                && store == old(store)[NotesKey := Parsed(notes)]
      ensures forall j :: 0 <= j < |notes| && notes[j].id != id ==> notes[j] == old(notes)[j]
    {
      var k := FindIndex(notes, HasId(id));
      if k.Some? {
        var i := k.value;
        notes := notes[i := notes[i].(content := content, updatedAt := Some(now))];
        store := store[NotesKey := Parsed(notes)];
      }
    }

    /** changeNoteColor: the first note with that id gets the colour, and the list is stored; an unknown id changes nothing. */
    method ChangeNoteColor(id: int, color: string)
      modifies this
      ensures |notes| == |old(notes)|
      ensures FindIndex(old(notes), HasId(id)).None? ==> notes == old(notes) && store == old(store)
      ensures FindIndex(old(notes), HasId(id)).Some? ==>
                var i := FindIndex(old(notes), HasId(id)).value;
                notes == old(notes)[i := old(notes)[i].(color := color)]
                && store == old(store)[NotesKey := Parsed(notes)]
      ensures forall j :: 0 <= j < |notes| && notes[j].id != id ==> notes[j] == old(notes)[j]
    {
      var k := FindIndex(notes, HasId(id));
      if k.Some? {
        var i := k.value;
        notes := notes[i := notes[i].(color := color)];
        store := store[NotesKey := Parsed(notes)];
      }
    }
  }

  /** Deleting by id keeps every note with another id exactly as often as before, and none with that id. */
  lemma DeleteKeepsOthers(notes: seq<Note>, id: int, n: Note)
    ensures multiset(Filter(notes, Not(HasId(id))))[n] == if n.id != id then multiset(notes)[n] else 0
  {
    FilterMultiset(notes, Not(HasId(id)), n);
  }
}
