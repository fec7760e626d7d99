/**
 * change_projects.py: LEFT/RIGHT move a cursor over the three projects plus
 * one extra "exit" slot (index 3), the touch sensor runs the selected
 * project or, on the exit slot, leaves the loop, and the Bluetooth button
 * leaves the loop from anywhere.  The real loop polls forever; here it polls
 * a given sequence of readings and stops early when it breaks out.
 */
module ChangeProjects {
  import opened Wrappers
  import opened Menu

  const Projects: seq<string> := ["A", "B", "C"]

  /** `max_index = len(projects)`: the exit slot; the cursor has `MaxIndex + 1` slots. */
  const MaxIndex: nat := |Projects|

  /** One pass of the polling loop: `hub.buttons.pressed()` and `touch_sensor.pressed()`. */
  datatype Poll = Poll(pressed: set<Button>, touch: bool)

  /** Which branch of the `if/elif` chain a poll takes. */
  datatype Action = MoveLeft | MoveRight | Confirm | EmergencyExit | Idle

  /** The branches are tried in the order LEFT, RIGHT, touch, BLUETOOTH, and only one is taken. */
  function Decode(p: Poll): (a: Action)
    ensures a == MoveLeft <==> Left in p.pressed
    ensures a == MoveRight <==> Left !in p.pressed && Right in p.pressed
    ensures a == Confirm <==> Left !in p.pressed && Right !in p.pressed && p.touch
    ensures a == EmergencyExit <==> Left !in p.pressed && Right !in p.pressed && !p.touch && Bluetooth in p.pressed
    ensures a == Idle <==> Left !in p.pressed && Right !in p.pressed && !p.touch && Bluetooth !in p.pressed
  {
    if Left in p.pressed then MoveLeft
    else if Right in p.pressed then MoveRight
    else if p.touch then Confirm
    else if Bluetooth in p.pressed then EmergencyExit
    else Idle
  }

  /** What `show_current_selection` puts on the display. */
  datatype Display = ProjectIcon(name: string) | ExitIcon

  /** The project's icon exactly when `index < len(projects)`, otherwise the exit icon. */
  function ShowCurrentSelection(index: nat): (d: Display)
    ensures d.ProjectIcon? <==> index < |Projects|
    ensures d.ProjectIcon? ==> d.name == Projects[index]
  {
    if index < |Projects| then ProjectIcon(Projects[index]) else ExitIcon
  }

  /** `projectExecute`: 0 runs A, 1 runs B, 2 runs C, any other index does nothing. */
  function ProjectExecute(index: int): (p: Option<Project>)
    ensures p == Some(A) <==> index == 0
    ensures p == Some(B) <==> index == 1
    ensures p == Some(C) <==> index == 2
    ensures p.None? <==> !(0 <= index < 3)
  {
    if index == 0 then Some(A)
    else if index == 1 then Some(B)
    else if index == 2 then Some(C)
    else None
  }

  /** One iteration of the loop: go on with a new cursor (and maybe a project run), or break. */
  datatype StepResult = Continue(index: int, ran: Option<Project>) | Exit

  /**
   * One pass through the loop body.  It breaks exactly on a touch at the exit
   * slot or on BLUETOOTH; a touch elsewhere runs `projects[index]` and keeps
   * the cursor; LEFT and RIGHT wrap around the four slots.
   */
  function Step(index: int, p: Poll): (s: StepResult)
    requires 0 <= index <= MaxIndex
    ensures s.Exit? <==> (Decode(p) == Confirm && index == MaxIndex) || Decode(p) == EmergencyExit
    ensures s.Continue? ==> 0 <= s.index <= MaxIndex
    ensures s.Continue? && Decode(p) == Confirm ==> s.index == index && s.ran.Some? && s.ran == ProjectExecute(index)
    ensures s.Continue? && Decode(p) != Confirm ==> s.ran.None?
    ensures Decode(p) == MoveLeft ==> s == Continue(Prev(index, MaxIndex + 1), None)
    ensures Decode(p) == MoveRight ==> s == Continue(Next(index, MaxIndex + 1), None)
    ensures Decode(p) == Idle ==> s == Continue(index, None)
  {
    match Decode(p)
    case MoveLeft => Continue(Prev(index, MaxIndex + 1), None)
    case MoveRight => Continue(Next(index, MaxIndex + 1), None)
    case Confirm => if index == MaxIndex then Exit else Continue(index, ProjectExecute(index))
    case EmergencyExit => Exit
    case Idle => Continue(index, None)
  }

  /** The state of the loop after some polls: cursor, projects run so far, and whether it broke out. */
  datatype Outcome = Outcome(index: int, ran: seq<Project>, exited: bool)

  /** The loop's meaning: apply `Step` poll by poll until a break or the polls run out. */
  function Run(index: int, ran: seq<Project>, polls: seq<Poll>): (o: Outcome)
    requires 0 <= index <= MaxIndex
    ensures 0 <= o.index <= MaxIndex
    ensures |ran| <= |o.ran|
    decreases |polls|
  {
    if |polls| == 0 then Outcome(index, ran, false)
    else
      match Step(index, polls[0])
      case Exit => Outcome(index, ran, true)
      case Continue(next, r) => Run(next, if r.Some? then ran + [r.value] else ran, polls[1..])
  }

  /** Pressing LEFT then RIGHT, or RIGHT then LEFT, puts the cursor back where it was. */
  lemma LeftRightCancel(index: int, left: Poll, right: Poll)
    requires 0 <= index <= MaxIndex
    requires Decode(left) == MoveLeft && Decode(right) == MoveRight
    ensures Step(Step(index, left).index, right) == Continue(index, None)
    ensures Step(Step(index, right).index, left) == Continue(index, None)
  {
    PrevNextInverse(index, MaxIndex + 1);
  }

  /** Once the loop has broken out, polls that would have come later change nothing. */
  lemma {:induction false} BreakIsFinal(index: int, ran: seq<Project>, polls: seq<Poll>, later: seq<Poll>)
    requires 0 <= index <= MaxIndex
    requires Run(index, ran, polls).exited
    ensures Run(index, ran, polls + later) == Run(index, ran, polls)
    decreases |polls|
  {
    assert (polls + later)[0] == polls[0];
    match Step(index, polls[0])
    case Exit =>
    case Continue(next, r) =>
      assert (polls + later)[1..] == polls[1..] + later;
      BreakIsFinal(next, if r.Some? then ran + [r.value] else ran, polls[1..], later);
  }

  /**
   * `main`: the cursor starts at 0 and stays within the four slots; every
   * project run is recorded in order; the loop ends on a break or when the
   * polls run out.
   */
  method MainLoop(polls: seq<Poll>) returns (currentIndex: int, ran: seq<Project>, exited: bool)
    ensures Outcome(currentIndex, ran, exited) == Run(0, [], polls)
    ensures 0 <= currentIndex <= MaxIndex
  {
    currentIndex, ran, exited := 0, [], false;
    var i := 0;
    while i < |polls| && !exited
      invariant 0 <= i <= |polls|
      invariant 0 <= currentIndex <= MaxIndex
      invariant Run(0, [], polls) == if exited then Outcome(currentIndex, ran, true) else Run(currentIndex, ran, polls[i..])
    {
      var poll := polls[i];
      assert polls[i..][1..] == polls[i + 1..];
      if Left in poll.pressed {
        currentIndex := (currentIndex - 1) % (MaxIndex + 1);
      } else if Right in poll.pressed {
        currentIndex := (currentIndex + 1) % (MaxIndex + 1);
      } else if poll.touch {
        if currentIndex == MaxIndex {
          exited := true;
        } else {
          var project := ProjectExecute(currentIndex);
          ran := ran + [project.value];
        }
      } else if Bluetooth in poll.pressed {
        exited := true;
      }
      i := i + 1;
    }
  }
}
