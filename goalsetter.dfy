/** The goal editor (components/GoalSetter.tsx:12-29, 62): three fields of
    state, the type, the period and the target, set by the buttons and the
    input, reset whenever the dialog opens, and turned into a goal by Save
    only when the target is positive. */
module GoalSetter {
  import opened Types
  import opened Strings

  /** The type a goal opens with: its own, or time. */
  function InitialType(current: Option<Goal>): GoalType
  {
    if current.Some? then current.value.goalType else Time
  }

  /** The period a goal opens with: its own, or daily. */
  function InitialPeriod(current: Option<Goal>): GoalPeriod
  {
    if current.Some? then current.value.period else Daily
  }

  /** The target of the first render: the goal's target when it is not 0,
      else 15. */
  function FirstTarget(current: Option<Goal>): (t: int)
    ensures current.Some? && current.value.target != 0 ==> t == current.value.target
    ensures current.None? || current.value.target == 0 ==> t == 15
  {
    if current.Some? && current.value.target != 0 then current.value.target else 15
  }

  /** The target set on opening: the goal's target when it is not 0, else 15
      when the goal is a time goal and 3 otherwise, including when there is
      no goal. */
  function OpenedTarget(current: Option<Goal>): (t: int)
    ensures current.Some? && current.value.target != 0 ==> t == current.value.target
    ensures current.Some? && current.value.target == 0 ==>
      t == (if current.value.goalType == Time then 15 else 3)
    ensures current.None? ==> t == 3
  {
    if current.Some? && current.value.target != 0 then current.value.target
    else if current.Some? && current.value.goalType == Time then 15
    else 3
  }

  /** The input handler: `parseInt(value) || 1`, so an unreadable value or
      0 gives 1, and every other number, negative ones too, is kept. */
  function TargetOfInput(value: string): (t: int)
    ensures t != 0
    ensures ParseInt(value).Some? && ParseInt(value).value != 0 ==> t == ParseInt(value).value
    ensures ParseInt(value).None? || ParseInt(value) == Some(0) ==> t == 1
  {
    var n := ParseInt(value);
    if n.Some? && n.value != 0 then n.value else 1
  }

  class GoalEditor {
    var goalType: GoalType
    var period: GoalPeriod
    var target: int

    /** The first render, for the goal being edited. */
    constructor (current: Option<Goal>)
      ensures goalType == InitialType(current) && period == InitialPeriod(current)
      ensures target == FirstTarget(current)
    {
      goalType := InitialType(current);
      period := InitialPeriod(current);
      target := FirstTarget(current);
    }

    /** The effect run when the dialog opens. */
    method Open(current: Option<Goal>)
      modifies this
      ensures goalType == InitialType(current) && period == InitialPeriod(current)
      ensures target == OpenedTarget(current)
    {
      goalType := InitialType(current);
      period := InitialPeriod(current);
      target := OpenedTarget(current);
    }

    method ChooseType(t: GoalType)
      modifies this`goalType
      ensures goalType == t
    {
      goalType := t;
    }

    method ChoosePeriod(p: GoalPeriod)
      modifies this`period
      ensures period == p
    {
      period := p;
    }

    /** The target input changed to `value`. */
    method InputTarget(value: string)
      modifies this`target
      ensures target == TargetOfInput(value)
    {
      var n := ParseInt(value);
      if n.Some? && n.value != 0 {
        target := n.value;
      } else {
        target := 1;
      }
    }

    /** handleSave: the goal handed to the app, only when the target is
        positive, and then exactly the current selection. */
    method Save() returns (saved: Option<Goal>)
      ensures saved.Some? <==> target > 0
      ensures saved.Some? ==> saved.value == Goal(goalType, period, target)
    {
      if target > 0 {
        saved := Some(Goal(goalType, period, target));
      } else {
        saved := None;
      }
    }
  }

  /** Opening the editor with no goal selects a time goal of 3 minutes,
      although the first render offers 15. */
  lemma {:induction false} NoGoalOpensAtThree()
    ensures InitialType(None) == Time && OpenedTarget(None) == 3 && FirstTarget(None) == 15
  {
  }

  /** A negative number typed in is kept by the input (the `min` attribute
      of the field does not stop it), so Save then refuses it. */
  lemma {:induction false} NegativeInputKept(d: string)
    requires |d| > 0 && AllDigits(d) && DigitsValue(d) > 0
    ensures TargetOfInput("-" + d) == -(DigitsValue(d) as int) < 0
  {
    ParseIntNegatedDigits(d);
  }

  /** A positive number typed in is the target saved. */
  lemma {:induction false} DigitsInputKept(d: string)
    requires |d| > 0 && AllDigits(d) && DigitsValue(d) > 0
    ensures TargetOfInput(d) == DigitsValue(d)
  {
    ParseIntDigits(d);
  }

  /** Clearing the field gives 1, since `parseInt` reads nothing. */
  lemma {:induction false} EmptyInputGivesOne()
    ensures TargetOfInput("") == 1
  {
    assert TrimStart("") == "";
  }
}
