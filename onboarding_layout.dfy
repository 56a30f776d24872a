/** The onboarding wizard's progress bar: which step the path names, and
    which circles and connecting lines are highlighted. */
module OnboardingLayout {

  /** `sub` occurs in `s` starting at index i. */
  predicate OccursAt(s: string, sub: string, i: int)
  {
    0 <= i && i + |sub| <= |s| && s[i..i + |sub|] == sub
  }

  /** `s.includes(sub)`. */
  predicate Includes(s: string, sub: string)
  {
    exists i :: 0 <= i <= |s| && OccursAt(s, sub, i)
  }

  /** The step the pathname names: 'step2' is tested first, then 'step3', else step 1. */
  function CurrentStep(pathname: string): (step: int)
    ensures 1 <= step <= 3
    ensures step == 2 <==> Includes(pathname, "step2")
    ensures step == 3 <==> !Includes(pathname, "step2") && Includes(pathname, "step3")
  {
    if Includes(pathname, "step2") then 2
    else if Includes(pathname, "step3") then 3
    else 1
  }

  /** The active flags of the three circles and the two lines between them. */
  datatype Progress = Progress(circle1: bool, line1: bool, circle2: bool, line2: bool, circle3: bool)

  function ProgressBar(pathname: string): (p: Progress)
    ensures p.circle1
    ensures p.line1 == p.circle2 == (CurrentStep(pathname) >= 2)
    ensures p.line2 == p.circle3 == (CurrentStep(pathname) == 3)
    // The highlight never skips a step: a later circle is active only if the earlier one is.
    ensures (p.circle3 ==> p.circle2) && (p.circle2 ==> p.circle1)
  {
    var step := CurrentStep(pathname);
    Progress(step >= 1, step >= 2, step >= 2, step > 2, step > 2)
  }
}
