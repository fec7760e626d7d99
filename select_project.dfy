/**
 * selectproject_sample.py: the global `index` moves over the three projects
 * with LEFT and RIGHT, wrapping at both ends, and CENTER runs the project
 * whose NAME is `projects[index]`.  The real loop never ends; here it polls
 * a given sequence of button sets.
 */
module SelectProject {
  import opened Wrappers
  import opened Menu

  const Projects: seq<string> := ["A", "B", "C"]

  /** Which branch of the `if/elif` chain a set of pressed buttons takes. */
  datatype Action = MoveLeft | MoveRight | Execute | Idle

  /** LEFT is checked before RIGHT and RIGHT before CENTER; at most one branch acts. */
  function Decode(pressed: set<Button>): (a: Action)
    ensures a == MoveLeft <==> Left in pressed
    ensures a == MoveRight <==> Left !in pressed && Right in pressed
    ensures a == Execute <==> Left !in pressed && Right !in pressed && Center in pressed
    ensures a == Idle <==> Left !in pressed && Right !in pressed && Center !in pressed
  {
    if Left in pressed then MoveLeft
    else if Right in pressed then MoveRight
    else if Center in pressed then Execute
    else Idle
  }

  /** `projectExecute`'s name dispatch: "A", "B" and "C" run their project, any other name nothing. */
  function Dispatch(name: string): (p: Option<Project>)
    ensures p == Some(A) <==> name == "A"
    ensures p == Some(B) <==> name == "B"
    ensures p == Some(C) <==> name == "C"
    ensures p.None? <==> name != "A" && name != "B" && name != "C"
  {
    if name == "A" then Some(A)
    else if name == "B" then Some(B)
    else if name == "C" then Some(C)
    else None
  }

  /** `projectExecute(index)`: runs the project named `projects[index]`; with this list, index i runs the i-th project. */
  function ProjectExecute(index: int): (p: Option<Project>)
    requires 0 <= index < |Projects|
    ensures p == Some([A, B, C][index])
  {
    Dispatch(Projects[index])
  }

  /** The state after some polls: the global `index` and the projects run so far. */
  datatype Outcome = Outcome(index: int, ran: seq<Project>)

  /** One pass through the loop body: LEFT/RIGHT wrap over the projects, CENTER runs one and keeps `index`. */
  function Step(o: Outcome, pressed: set<Button>): (r: Outcome)
    requires 0 <= o.index < |Projects|
    ensures 0 <= r.index < |Projects|
    ensures Decode(pressed) == Execute ==> r.index == o.index && r.ran == o.ran + [ProjectExecute(o.index).value]
    ensures Decode(pressed) != Execute ==> r.ran == o.ran
    ensures Decode(pressed) == MoveLeft ==> r.index == Prev(o.index, |Projects|)
    ensures Decode(pressed) == MoveRight ==> r.index == Next(o.index, |Projects|)
    ensures Decode(pressed) == Idle ==> r == o
  {
    match Decode(pressed)
    case MoveLeft => Outcome(Prev(o.index, |Projects|), o.ran)
    case MoveRight => Outcome(Next(o.index, |Projects|), o.ran)
    case Execute => Outcome(o.index, o.ran + [ProjectExecute(o.index).value])
    case Idle => o
  }

  /** The loop's meaning: `Step` applied to each poll in turn. */
  function Run(o: Outcome, polls: seq<set<Button>>): (r: Outcome)
    requires 0 <= o.index < |Projects|
    ensures 0 <= r.index < |Projects|
    ensures |o.ran| <= |r.ran|
    decreases |polls|
  {
    if |polls| == 0 then o else Run(Step(o, polls[0]), polls[1..])
  }

  /** LEFT and RIGHT are inverse moves on every index, wrap-around included. */
  lemma LeftRightCancel(o: Outcome, left: set<Button>, right: set<Button>)
    requires 0 <= o.index < |Projects|
    requires Decode(left) == MoveLeft && Decode(right) == MoveRight
    ensures Step(Step(o, left), right) == o
    ensures Step(Step(o, right), left) == o
  {
    PrevNextInverse(o.index, |Projects|);
  }

  /** Polls in which no button is pressed change nothing. */
  lemma {:induction false} IdlePollsChangeNothing(o: Outcome, polls: seq<set<Button>>)
    requires 0 <= o.index < |Projects|
    requires forall i :: 0 <= i < |polls| ==> Decode(polls[i]) == Idle
    ensures Run(o, polls) == o
    decreases |polls|
  {
    if |polls| > 0 {
      IdlePollsChangeNothing(Step(o, polls[0]), polls[1..]);
    }
  }

  /** The top-level loop, from `index = 0`: after every press `index` stays in `[0, len(projects))`. */
  method MainLoop(polls: seq<set<Button>>) returns (index: int, ran: seq<Project>)
    ensures Outcome(index, ran) == Run(Outcome(0, []), polls)
    ensures 0 <= index < |Projects|
  {
    index, ran := 0, [];
    for i := 0 to |polls|
      invariant 0 <= index < |Projects|
      invariant Run(Outcome(0, []), polls) == Run(Outcome(index, ran), polls[i..])
    {
      var buttons := polls[i];
      assert polls[i..][1..] == polls[i + 1..];
      if Left in buttons {
        index := (index - 1) % |Projects|;
      } else if Right in buttons {
        index := (index + 1) % |Projects|;
      } else if Center in buttons {
        var project := ProjectExecute(index);
        ran := ran + [project.value];
      }
    }
    assert polls[|polls|..] == [];
  }
}
