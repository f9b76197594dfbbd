/**
 * js/tasks.js: the daily task planner. The list lives in storage; render
 * parses it and gives every task a checkbox, a text box and a delete button
 * whose handlers change that parsed array and write all of it back, which
 * renders again.
 */
module Tasks {
  import opened Base
  import opened Utils

  const TasksKey := "dailyTasks"

  datatype DailyTask = DailyTask(text: string, done: bool)

  class DailyPlanner {
    /** The array the last render parsed, as its handlers hold it. */
    var shown: seq<DailyTask>
    var store: map<string, Item<seq<DailyTask>>>

    /** The stored list, as JSON.parse of the key (or of '[]') gives it. */
    function Stored(): seq<DailyTask>
      reads this
    {
      Load(store, TasksKey, [])
    }

    /** After a render the page shows what storage holds; unparsable text leaves an empty list. */
    predicate Rendered()
      reads this
    {
      shown == Stored()
    }

    /** The page script's start-up: render. */
    constructor (store: map<string, Item<seq<DailyTask>>>)
      ensures this.store == store
      ensures Rendered()
    {
      this.store := store;
      shown := Load(store, TasksKey, []);
    }

    /** render: the list is cleared, then re-read from storage (JSON.parse throwing leaves it empty). */
    method Render()
      modifies this`shown
      ensures Rendered()
    {
      shown := Load(store, TasksKey, []);
    }

    /** save: write the whole array under the key, then render. */
    method Save(tasks: seq<DailyTask>)
      modifies this`shown, this`store
      ensures store == old(store)[TasksKey := Parsed(tasks)]
      ensures shown == tasks && Stored() == tasks
    {
      store := store[TasksKey := Parsed(tasks)];
      Render();
    }

    /**
     * The form's submit handler: blank input is ignored; otherwise the stored
     * list gets the trimmed text, not done, at the end. Unparsable stored text
     * makes JSON.parse throw and nothing changes.
     */
    method Add(input: string) returns (added: bool)
      modifies this`shown, this`store
      ensures added <==> Trim(input) != "" && ParseItem(old(store), TasksKey, []).Some?
      ensures !added ==> shown == old(shown) && store == old(store)
      ensures added ==> Stored() == old(Stored()) + [DailyTask(Trim(input), false)]
                        && store == old(store)[TasksKey := Parsed(Stored())]
                        && Rendered()
    {
      var text := Trim(input);
      if text == "" {
        return false;
      }
      var parsed := ParseItem(store, TasksKey, []);
      if parsed.None? {
        return false;
      }
      Save(parsed.value + [DailyTask(text, false)]);
      added := true;
    }

    /** A checkbox's change handler: that task's done flag becomes the box's state; no other task changes. */
    method SetDone(i: nat, checked: bool)
      requires i < |shown|
      modifies this`shown, this`store
      ensures shown == old(shown)[i := old(shown)[i].(done := checked)]
      ensures store == old(store)[TasksKey := Parsed(shown)] && Rendered()
    {
      Save(shown[i := shown[i].(done := checked)]);
    }

    /** A text box's change handler: that task's text becomes the box's value as typed (not trimmed, may be empty). */
    method SetText(i: nat, text: string)
      requires i < |shown|
      modifies this`shown, this`store
      ensures shown == old(shown)[i := old(shown)[i].(text := text)]
      ensures store == old(store)[TasksKey := Parsed(shown)] && Rendered()
    {
      Save(shown[i := shown[i].(text := text)]);
    }

    /** A delete button's handler: splice out that task (indexOf finds its own object), keep the rest in order. */
    method Delete(i: nat)
      requires i < |shown|
      modifies this`shown, this`store
      ensures shown == old(shown)[..i] + old(shown)[i + 1..]
      ensures |shown| == |old(shown)| - 1
      ensures store == old(store)[TasksKey := Parsed(shown)] && Rendered()
    {
      Save(RemoveAt(shown, i));
    }
  }
}
