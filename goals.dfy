/** The weekly goal checklist: the starting goals, ticking a goal on or off
    (`toggleGoal`) and adding one (`addGoal`).  Both operations return a new
    list, as the source does with `map` and spread. */
module Goals {

  datatype Goal = Goal(id: int, text: string, completed: bool, week: int)

  /** The three goals the journal starts with, for the current week. */
  function InitialGoals(week: int): (r: seq<Goal>)
    ensures |r| == 3
    ensures forall i | 0 <= i < |r| :: !r[i].completed && r[i].week == week && r[i].id == i + 1
  {
    [Goal(1, "Practice active listening", false, week),
     Goal(2, "Express gratitude daily", false, week),
     Goal(3, "Have one meaningful conversation", false, week)]
  }

  /** `toggleGoal(goalId)`: every goal with that id has `completed` flipped;
      every other goal, and every other field, is unchanged. */
  function ToggleGoal(goals: seq<Goal>, goalId: int): (r: seq<Goal>)
    ensures |r| == |goals|
    ensures forall i | 0 <= i < |goals| ::
              r[i].id == goals[i].id && r[i].text == goals[i].text && r[i].week == goals[i].week
    ensures forall i | 0 <= i < |goals| :: (r[i].completed != goals[i].completed <==> goals[i].id == goalId)
  {
    seq(|goals|, i requires 0 <= i < |goals| =>
      if goals[i].id == goalId then goals[i].(completed := !goals[i].completed) else goals[i])
  }

  /** Toggling the same goal twice gives back the original list. */
  lemma ToggleTwice(goals: seq<Goal>, goalId: int)
    ensures ToggleGoal(ToggleGoal(goals, goalId), goalId) == goals
  {
    var once := ToggleGoal(goals, goalId);
    var twice := ToggleGoal(once, goalId);
    forall i | 0 <= i < |goals|
      ensures twice[i] == goals[i]
    {
      assert once[i].id == goals[i].id;
    }
  }

  /** Toggling an id that no goal carries changes nothing. */
  lemma ToggleUnknownId(goals: seq<Goal>, goalId: int)
    requires forall i | 0 <= i < |goals| :: goals[i].id != goalId
    ensures ToggleGoal(goals, goalId) == goals
  {
    var r := ToggleGoal(goals, goalId);
    forall i | 0 <= i < |goals|
      ensures r[i] == goals[i]
    {
    }
  }

  /** `addGoal(text)`, with `Date.now()` as `id` and the current week given:
      the list gains exactly one goal, at the end, not yet completed. */
  function AddGoal(goals: seq<Goal>, text: string, id: int, week: int): (r: seq<Goal>)
    ensures |r| == |goals| + 1
    ensures r[..|goals|] == goals
    ensures r[|goals|].text == text && !r[|goals|].completed
    ensures r[|goals|].id == id && r[|goals|].week == week
  {
    goals + [Goal(id, text, false, week)]
  }

  /** A goal just added under a fresh id can be ticked without touching any
      earlier goal. */
  lemma ToggleAddedGoal(goals: seq<Goal>, text: string, id: int, week: int)
    requires forall i | 0 <= i < |goals| :: goals[i].id != id
    ensures ToggleGoal(AddGoal(goals, text, id, week), id) == goals + [Goal(id, text, true, week)]
  {
    var added := AddGoal(goals, text, id, week);
    var r := ToggleGoal(added, id);
    forall i | 0 <= i < |added|
      ensures r[i] == (goals + [Goal(id, text, true, week)])[i]
    {
      if i < |goals| {
        assert added[i] == goals[i];
      }
    }
  }
}
