/** The backend's session advisor: three sequential rules, each overwriting the advice of
    the ones before it, so the last rule that applies wins. */
module AnalysisService {
  import opened Wrappers
  import Text

  datatype AdviceKind = Warning | Info

  datatype Advice = Advice(title: string, description: string, kind: AdviceKind)

  /** Preferred session length when the student has stored none. */
  const DefaultStudyDuration: int := 25

  const LowFocus: Advice := Advice(
    "Low Focus Detected",
    "You seem a bit distracted. Try taking a deep breath or a short stretch.",
    Warning)

  function BreakAdvice(currentMinutes: int, preferredMinutes: int): Advice {
    Advice(
      "Time for a Break?",
      "You've been studying for " + Text.IntToString(currentMinutes) + " mins. Your goal was "
        + Text.IntToString(preferredMinutes) + " mins.",
      Info)
  }

  const LateNight: Advice := Advice(
    "Late Night Warrior",
    "It's getting late. Sleep is crucial for memory consolidation!",
    Info)

  predicate IsLowFocus(focusScore: real) { focusScore < 0.4 }

  predicate IsOvertime(currentMinutes: int, preferredMinutes: int) {
    currentMinutes >= preferredMinutes + 5
  }

  /** 23:00 up to 04:59 local time. */
  predicate IsLateNight(hour: int) { hour >= 23 || hour < 5 }

  /** `analyze_session`, with the local hour passed in and the stored preference as an
      optional value. */
  function AnalyzeSession(focusScore: real, currentMinutes: int, preferredMinutes: Option<int>, hour: int): (r: Option<Advice>)
    ensures var pref := preferredMinutes.GetOr(DefaultStudyDuration);
      && (r.None? <==> !IsLowFocus(focusScore) && !IsOvertime(currentMinutes, pref) && !IsLateNight(hour))
      && (IsLateNight(hour) ==> r == Some(LateNight))
      && (!IsLateNight(hour) && IsOvertime(currentMinutes, pref) ==> r == Some(BreakAdvice(currentMinutes, pref)))
      && (r == Some(LowFocus) <==> IsLowFocus(focusScore) && !IsOvertime(currentMinutes, pref) && !IsLateNight(hour))
    ensures r.Some? ==> (r.value.kind == Warning <==> r == Some(LowFocus))
  {
    var advice: Option<Advice> := None;
    var advice := if IsLowFocus(focusScore) then Some(LowFocus) else advice;
    var preferred := preferredMinutes.GetOr(DefaultStudyDuration);
    var advice := if IsOvertime(currentMinutes, preferred) then Some(BreakAdvice(currentMinutes, preferred)) else advice;
    var advice := if IsLateNight(hour) then Some(LateNight) else advice;
    advice
  }

  /** A rule: whether it applies, and the advice it gives. */
  datatype Rule = Rule(applies: bool, advice: Advice)

  /** Reference reading of a list of overwriting rules: the advice of the last rule that
      applies, or none. */
  function LastApplying(rules: seq<Rule>): (r: Option<Advice>)
    ensures r.None? <==> forall i :: 0 <= i < |rules| ==> !rules[i].applies
    ensures r.Some? ==> exists i :: 0 <= i < |rules| && rules[i].applies && rules[i].advice == r.value
                          && forall j :: i < j < |rules| ==> !rules[j].applies
  {
    if rules == [] then None
    else if rules[|rules| - 1].applies then Some(rules[|rules| - 1].advice)
    else LastApplying(rules[..|rules| - 1])
  }

  function SessionRules(focusScore: real, currentMinutes: int, preferredMinutes: Option<int>, hour: int): seq<Rule> {
    var preferred := preferredMinutes.GetOr(DefaultStudyDuration);
    [Rule(IsLowFocus(focusScore), LowFocus),
     Rule(IsOvertime(currentMinutes, preferred), BreakAdvice(currentMinutes, preferred)),
     Rule(IsLateNight(hour), LateNight)]
  }

  /** The advisor gives exactly the advice of the last of its three rules that applies. */
  lemma AnalyzeSessionIsLastApplyingRule(focusScore: real, currentMinutes: int, preferredMinutes: Option<int>, hour: int)
    ensures AnalyzeSession(focusScore, currentMinutes, preferredMinutes, hour)
         == LastApplying(SessionRules(focusScore, currentMinutes, preferredMinutes, hour))
  {
    var rules := SessionRules(focusScore, currentMinutes, preferredMinutes, hour);
    assert rules[..|rules| - 1] == rules[..2];
    assert rules[..2][..1] == rules[..1];
    assert rules[..1][..0] == [];
    assert LastApplying(rules[..1]) == if rules[0].applies then Some(rules[0].advice) else None;
    assert LastApplying(rules[..2]) == if rules[1].applies then Some(rules[1].advice) else LastApplying(rules[..1]);
    assert LastApplying(rules) == if rules[2].applies then Some(rules[2].advice) else LastApplying(rules[..2]);
  }
}
