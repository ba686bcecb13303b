/**
 * Template instantiation: `stringByReplacingOccurrencesOfString` as used on
 * the player page, which replaces every non-overlapping occurrence of the
 * target, scanning left to right.
 */
module Template {

  /** The placeholder in Player.html that receives the JSON parameters. */
  const ParametersPlaceholder: string := "@PARAMETERS@"

  function ReplaceOccurrences(s: string, target: string, replacement: string): string
    requires |target| > 0
    decreases |s|
  {
    if |s| < |target| then s
    else if s[..|target|] == target then replacement + ReplaceOccurrences(s[|target|..], target, replacement)
    else [s[0]] + ReplaceOccurrences(s[1..], target, replacement)
  }

  /** The page that is loaded: the template with the JSON text in place of the placeholder. */
  function Instantiate(template: string, json: string): string
  {
    ReplaceOccurrences(template, ParametersPlaceholder, json)
  }

  predicate OccursAt(s: string, target: string, i: int)
  {
    0 <= i && i + |target| <= |s| && s[i..i + |target|] == target
  }

  /** No occurrence of the target starts before index k. */
  predicate NoOccurrenceBefore(s: string, target: string, k: int)
  {
    forall i :: 0 <= i < k ==> !OccursAt(s, target, i)
  }

  lemma ShiftedOccurrence(s: string, target: string, i: int)
    requires |s| > 0 && 0 <= i
    ensures OccursAt(s[1..], target, i) <==> OccursAt(s, target, i + 1)
  {
    if i + |target| <= |s[1..]| {
      assert s[1..][i..i + |target|] == s[i + 1..i + 1 + |target|];
    }
  }

  /** A string without the target comes back unchanged. */
  lemma {:induction false} NoOccurrenceUnchanged(s: string, target: string, replacement: string)
    requires |target| > 0
    requires NoOccurrenceBefore(s, target, |s|)
    ensures ReplaceOccurrences(s, target, replacement) == s
    decreases |s|
  {
    if |s| >= |target| {
      assert !OccursAt(s, target, 0);
      forall i | 0 <= i < |s[1..]| ensures !OccursAt(s[1..], target, i) {
        ShiftedOccurrence(s, target, i);
      }
      NoOccurrenceUnchanged(s[1..], target, replacement);
    }
  }

  /** Scanning moves one character on when the target does not start here. */
  lemma StepPastNonOccurrence(s: string, target: string, replacement: string)
    requires |target| > 0 && |s| >= |target| && !OccursAt(s, target, 0)
    ensures ReplaceOccurrences(s, target, replacement) == [s[0]] + ReplaceOccurrences(s[1..], target, replacement)
  {
  }

  /** The first occurrence is replaced and everything before it is kept. */
  lemma {:induction false} FirstOccurrenceReplaced(s: string, target: string, replacement: string, k: nat)
    requires |target| > 0
    requires OccursAt(s, target, k) && NoOccurrenceBefore(s, target, k)
    ensures ReplaceOccurrences(s, target, replacement)
         == s[..k] + replacement + ReplaceOccurrences(s[k + |target|..], target, replacement)
    decreases k
  {
    if k > 0 {
      var rest := s[1..];
      assert !OccursAt(s, target, 0);
      StepPastNonOccurrence(s, target, replacement);
      ShiftedOccurrence(s, target, k - 1);
      forall i | 0 <= i < k - 1 ensures !OccursAt(rest, target, i) {
        ShiftedOccurrence(s, target, i);
      }
      FirstOccurrenceReplaced(rest, target, replacement, k - 1);
      assert rest[k - 1 + |target|..] == s[k + |target|..];
      assert [s[0]] + rest[..k - 1] == s[..k];
    }
  }

  /**
   * A template holding the placeholder once yields the page with the JSON
   * text in its place and every other character kept.
   */
  lemma SinglePlaceholder(before: string, after: string, json: string)
    requires NoOccurrenceBefore(before + ParametersPlaceholder + after, ParametersPlaceholder, |before|)
    requires NoOccurrenceBefore(after, ParametersPlaceholder, |after|)
    ensures Instantiate(before + ParametersPlaceholder + after, json) == before + json + after
  {
    var s := before + ParametersPlaceholder + after;
    var n := |ParametersPlaceholder|;
    assert s[|before|..|before| + n] == ParametersPlaceholder;
    FirstOccurrenceReplaced(s, ParametersPlaceholder, json, |before|);
    assert s[..|before|] == before;
    assert s[|before| + n..] == after;
    NoOccurrenceUnchanged(after, ParametersPlaceholder, json);
  }
}
