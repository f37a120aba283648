/** Coaching Scheduler of the focus tracker: which message category the stabilised emotion
    and the focus status call for, and which message of that category a random draw picks. */
module Coaching {
  import opened Wrappers
  import E = Expression
  import P = Pose

  /** Minimum time between two coaching messages, in milliseconds. */
  const CoachingInterval: int := 50000

  datatype Category =
    | Overwhelmed | Fatigued | Confused | Happy | Distracted | Focused | Hydration | Rewards

  /** How many messages each category has. */
  function MessageCount(c: Category): nat {
    if c == Focused then 5 else 4
  }

  /** The voice-message table: line `i` of category `c`. */
  function Message(c: Category, i: nat): string
    requires i < MessageCount(c)
  {
    match c
    case Overwhelmed =>
      if i == 0 then "You seem a bit overwhelmed. Take a deep breath."
      else if i == 1 then "It's okay to take a step back. Just breathe."
      else if i == 2 then "Don't stress. One thing at a time."
      else "Maybe close your eyes for a second and reset."
    case Fatigued =>
      if i == 0 then "You seem tired. Maybe stretch for a moment?"
      else if i == 1 then "Time for a quick stand-up break? You look sleepy."
      else if i == 2 then "Eyes are getting heavy! Wake up with some water."
      else "Power stance! Shake it off!"
    case Confused =>
      if i == 0 then "You look puzzled. Try breaking it down."
      else if i == 1 then "Stuck on something? Maybe ask the chatbot."
      else if i == 2 then "Don't worry, confusion is part of learning."
      else "Take a second to rethink the problem."
    case Happy =>
      if i == 0 then "You're in the zone! Keep it up!"
      else if i == 1 then "Great focus! You're crushing it."
      else if i == 2 then "Love the positive energy!"
      else "Whatever you're doing, it's working."
    case Distracted =>
      if i == 0 then "Let's get back to it."
      else if i == 1 then "Eyes on the prize!"
      else if i == 2 then "Focus on the screen, please."
      else "You drifted off there. Back to work!"
    case Focused =>
      if i == 0 then "Steady progress. Keep going."
      else if i == 1 then "You're doing great. Stay with it."
      else if i == 2 then "Nice consistent focus."
      else if i == 3 then "One step at a time. You got this."
      else "Breath in, breath out. Stay focused."
    case Hydration =>
      if i == 0 then "Remember to stay hydrated."
      else if i == 1 then "Take a sip of water."
      else if i == 2 then "Hydration helps your brain function better."
      else "Don't forget to drink some water."
    case Rewards =>
      if i == 0 then "You've been working hard, maybe grab a healthy snack."
      else if i == 1 then "Reward yourself with a small treat soon."
      else if i == 2 then "Great focus session! You deserve a snack."
      else "Keep it up, and then treat yourself."
  }

  predicate IsCritical(e: E.Emotion) {
    e == E.Overwhelmed || e == E.Fatigued || e == E.Confused
  }

  /** The category chosen by priority: the critical emotions first (whatever the status),
      then Happy while focused, then the Focused and Distracted fillers by status. Nothing is
      chosen only when the status is still Loading and no critical emotion dominates. */
  function CoachCategory(dominant: E.Emotion, status: P.Status): (c: Option<Category>)
    ensures dominant == E.Overwhelmed <==> c == Some(Overwhelmed)
    ensures dominant == E.Fatigued <==> c == Some(Fatigued)
    ensures dominant == E.Confused <==> c == Some(Confused)
    ensures c == Some(Happy) <==> dominant == E.Happy && status == P.Focused
    ensures c == Some(Focused) <==> !IsCritical(dominant) && dominant != E.Happy && status == P.Focused
    ensures c == Some(Distracted) <==> !IsCritical(dominant) && status == P.Distracted
    ensures c.None? <==> !IsCritical(dominant) && status == P.Loading
    ensures c != Some(Hydration) && c != Some(Rewards)
  {
    if dominant == E.Overwhelmed then Some(Overwhelmed)
    else if dominant == E.Fatigued then Some(Fatigued)
    else if dominant == E.Confused then Some(Confused)
    else if dominant == E.Happy && status == P.Focused then Some(Happy)
    else
      match status
      case Focused => Some(Focused)
      case Distracted => Some(Distracted)
      case Loading => None
  }

  /** The three `Math.random()` values a coaching attempt may consume, in call order. */
  datatype Draws = Draws(first: real, second: real, third: real)

  predicate ValidDraws(d: Draws) {
    0.0 <= d.first < 1.0 && 0.0 <= d.second < 1.0 && 0.0 <= d.third < 1.0
  }

  /** `Math.floor(r * n)`: a uniform draw in [0, 1) picks one of `n` positions. */
  function PickIndex(n: nat, r: real): (i: nat)
    requires n > 0 && 0.0 <= r < 1.0
    ensures i < n
    ensures (i as real) <= r * (n as real) < (i as real) + 1.0
  {
    var x := r * (n as real);
    assert x < n as real by {
      assert (1.0 - r) * (n as real) > 0.0;
    }
    x.Floor
  }

  /** A message, as its category and its position in that category's list. */
  datatype Coach = Coach(category: Category, index: nat)

  predicate ValidCoach(m: Coach) { m.index < MessageCount(m.category) }

  /** What one open coaching slot says: the chosen category's message picked with the first
      draw; with no category, a filler only when the first draw exceeds 0.8, Hydration when
      the second exceeds 0.5 and Rewards otherwise, its message picked with the third. */
  function CoachMessage(dominant: E.Emotion, status: P.Status, draws: Draws): (m: Option<Coach>)
    requires ValidDraws(draws)
    ensures m.Some? ==> ValidCoach(m.value)
    ensures CoachCategory(dominant, status).Some? ==>
              m == Some(Coach(CoachCategory(dominant, status).value, PickIndex(MessageCount(CoachCategory(dominant, status).value), draws.first)))
    ensures CoachCategory(dominant, status).None? ==> (m.Some? <==> draws.first > 0.8)
    ensures CoachCategory(dominant, status).None? && m.Some? ==>
              m.value.category == (if draws.second > 0.5 then Hydration else Rewards)
  {
    match CoachCategory(dominant, status)
    case Some(c) => Some(Coach(c, PickIndex(MessageCount(c), draws.first)))
    case None =>
      if draws.first > 0.8 then
        var extra := if draws.second > 0.5 then Hydration else Rewards;
        Some(Coach(extra, PickIndex(MessageCount(extra), draws.third)))
      else None
  }

  /** The Hydration and Rewards fillers are spoken only while the captured status is still
      Loading, because every other status selects a regular category. */
  lemma FillersOnlyWhileLoading(dominant: E.Emotion, status: P.Status, draws: Draws)
    requires ValidDraws(draws)
    requires CoachMessage(dominant, status, draws).Some?
    requires CoachMessage(dominant, status, draws).value.category in {Hydration, Rewards}
    ensures status == P.Loading && !IsCritical(dominant)
  {
  }
}
