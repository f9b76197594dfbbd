/**
 * js/portfolio.js, the projects part: a stored list of projects, rendered as
 * cards with a delete button each, and a form that appends a project.
 */
module Portfolio {
  import opened Base
  import opened Utils

  const ProjectsKey := "projects"

  datatype Project = Project(title: string, desc: string, link: string)

  /** What a card shows: the title, the description, and whether it has a "View" link. */
  datatype Card = Card(title: string, desc: string, hasLink: bool)

  /** render's cards, one per stored project, in order; the link is drawn only when it is not empty. */
  function Cards(projects: seq<Project>): (r: seq<Card>)
    ensures |r| == |projects|
    ensures forall i :: 0 <= i < |r| ==>
              r[i].title == projects[i].title && r[i].desc == projects[i].desc
              && (r[i].hasLink <==> projects[i].link != "")
  {
    seq(|projects|, i requires 0 <= i < |projects| => Card(projects[i].title, projects[i].desc, projects[i].link != ""))
  }

  /** The form's test: trimmed title and description are both non-empty (the link may be empty). */
  predicate Acceptable(title: string, desc: string) {
    Trim(title) != "" && Trim(desc) != ""
  }

  class ProjectShelf {
    /** The array the last render parsed, as its delete handlers hold it. */
    var shown: seq<Project>
    var store: map<string, Item<seq<Project>>>

    /** The stored projects; an absent, empty or unparsable key reads as no projects. */
    function Stored(): seq<Project>
      reads this
    {
      Load(store, ProjectsKey, [])
    }

    predicate Rendered()
      reads this
    {
      shown == Stored()
    }

    /** The page script's start-up: render. */
    constructor (store: map<string, Item<seq<Project>>>)
      ensures this.store == store
      ensures Rendered()
      ensures ProjectsKey !in store ==> shown == []
    {
      this.store := store;
      shown := Load(store, ProjectsKey, []);
    }

    /** render: the list is cleared, then re-read from storage (JSON.parse throwing leaves it empty). */
    method Render()
      modifies this`shown
      ensures Rendered()
    {
      shown := Load(store, ProjectsKey, []);
    }

    /** save: write the whole array under the key, then render. */
    method Save(projects: seq<Project>)
      modifies this`shown, this`store
      ensures store == old(store)[ProjectsKey := Parsed(projects)]
      ensures shown == projects && Stored() == projects
    {
      store := store[ProjectsKey := Parsed(projects)];
      Render();
    }

    /**
     * The form's submit handler: with a blank title or description nothing
     * changes; otherwise the trimmed project goes at the end of the stored list
     * (an absent key counting as empty). Unparsable stored text makes JSON.parse
     * throw and nothing changes.
     */
    method Add(title: string, desc: string, link: string) returns (added: bool)
      modifies this`shown, this`store
      ensures added <==> Acceptable(title, desc) && ParseItem(old(store), ProjectsKey, []).Some?
      ensures !added ==> shown == old(shown) && store == old(store)
      ensures added ==> Stored() == old(Stored()) + [Project(Trim(title), Trim(desc), Trim(link))]
                        && store == old(store)[ProjectsKey := Parsed(Stored())]
                        && Rendered()
      ensures added && ProjectsKey !in old(store) ==> Stored() == [Project(Trim(title), Trim(desc), Trim(link))]
    {
      var t, d, l := Trim(title), Trim(desc), Trim(link);
      if t == "" || d == "" {
        return false;
      }
      var parsed := ParseItem(store, ProjectsKey, []);
      if parsed.None? {
        return false;
      }
      Save(parsed.value + [Project(t, d, l)]);
      added := true;
    }

    /** A card's delete handler: splice position i out of render's array and save; the rest keep their order. */
    method Delete(i: nat)
      requires i < |shown|
      modifies this`shown, this`store
      ensures shown == old(shown)[..i] + old(shown)[i + 1..]
      ensures |shown| == |old(shown)| - 1
      ensures store == old(store)[ProjectsKey := Parsed(shown)] && Rendered()
    {
      Save(RemoveAt(shown, i));
    }
  }

  /** A deleted card's neighbours move up by one and keep their links. */
  lemma {:induction false} DeleteShiftsCards(projects: seq<Project>, i: nat, j: nat)
    requires i < |projects| && j < |projects| - 1
    ensures Cards(RemoveAt(projects, i))[j] == Cards(projects)[if j < i then j else j + 1]
  {
    var rest := RemoveAt(projects, i);
    assert rest[j] == projects[if j < i then j else j + 1];
  }
}
