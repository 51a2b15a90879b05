/**
 * Trigger detection (main.py:251): a message asks for a summary when one of the configured
 * commands occurs in its content, Python's `cmd in content` on strings.
 */
module Trigger {
  /** `pat` occurs in `s` starting at index `i`. */
  predicate OccursAt(pat: string, s: string, i: nat) {
    i + |pat| <= |s| && s[i..i + |pat|] == pat
  }

  /** Python's substring test `pat in s`; the empty pattern occurs in every string. */
  function Contains(s: string, pat: string): (r: bool)
    ensures r <==> exists i: nat :: OccursAt(pat, s, i)
  {
    if |pat| <= |s| && s[..|pat|] == pat then
      assert OccursAt(pat, s, 0);
      true
    else if |s| == 0 then
      false
    else
      var r := Contains(s[1..], pat);
      assert forall i: nat {:trigger OccursAt(pat, s[1..], i)} :: OccursAt(pat, s[1..], i) <==> OccursAt(pat, s, i + 1) by {
        forall i: nat ensures OccursAt(pat, s[1..], i) <==> OccursAt(pat, s, i + 1) {
          if i + 1 + |pat| <= |s| {
            assert s[1..][i..i + |pat|] == s[i + 1..i + 1 + |pat|];
          }
        }
      }
      assert !OccursAt(pat, s, 0);
      assert forall i: nat {:trigger OccursAt(pat, s, i)} :: OccursAt(pat, s, i) ==> i > 0 && OccursAt(pat, s[1..], i - 1);
      r
  }

  /** `any(cmd in content for cmd in commands)`. */
  function AnyCommandIn(commands: seq<string>, content: string): (r: bool)
    ensures r <==> exists k: nat, i: nat :: k < |commands| && OccursAt(commands[k], content, i)
  {
    if |commands| == 0 then false
    else
      var here := Contains(content, commands[0]);
      var rest := AnyCommandIn(commands[1..], content);
      assert forall k: nat, i: nat {:trigger OccursAt(commands[1..][k], content, i)} :: k < |commands| - 1 ==>
        (OccursAt(commands[1..][k], content, i) <==> OccursAt(commands[k + 1], content, i));
      assert rest ==> exists k: nat, i: nat :: k < |commands| && OccursAt(commands[k], content, i) by {
        if rest {
          var k: nat, i: nat :| k < |commands| - 1 && OccursAt(commands[1..][k], content, i);
          assert OccursAt(commands[k + 1], content, i);
        }
      }
      assert (exists k: nat, i: nat :: k < |commands| && OccursAt(commands[k], content, i)) ==> here || rest by {
        if exists k: nat, i: nat :: k < |commands| && OccursAt(commands[k], content, i) {
          var k: nat, i: nat :| k < |commands| && OccursAt(commands[k], content, i);
          if k > 0 {
            assert OccursAt(commands[1..][k - 1], content, i);
          }
        }
      }
      here || rest
  }

  /** A message whose content is exactly a command, or has one embedded, triggers a summary. */
  lemma CommandEmbeddedTriggers(commands: seq<string>, k: nat, before: string, after: string)
    requires k < |commands|
    ensures AnyCommandIn(commands, before + commands[k] + after)
  {
    var content := before + commands[k] + after;
    assert content[|before|..|before| + |commands[k]|] == commands[k];
    assert OccursAt(commands[k], content, |before|);
  }

  /** An occurrence stays one when text is put in front. */
  lemma ContainsAfter(prefix: string, s: string, pat: string)
    requires Contains(s, pat)
    ensures Contains(prefix + s, pat)
  {
    var i: nat :| OccursAt(pat, s, i);
    assert (prefix + s)[|prefix| + i..|prefix| + i + |pat|] == s[i..i + |pat|];
    assert OccursAt(pat, prefix + s, |prefix| + i);
  }

  /** With no commands configured nothing triggers; an empty command triggers on every message. */
  lemma DegenerateCommandLists(content: string)
    ensures !AnyCommandIn([], content)
    ensures AnyCommandIn([""], content)
  {
    assert OccursAt("", content, 0);
  }
}
