/** code_parser_utils.py: stripping Markdown code fences from a model's reply
    before the reply is run as Python. The strip is literal substring deletion,
    not parsing: a fence inside a string constant is deleted too. */
module CodeParser {
  import opened Text
  import opened Seqs

  /** The bare fence. */
  const Fence: string := "```"

  /** The language-tagged opening fence. */
  const PythonFence: string := "```python"

  predicate OccursAt(s: string, pat: string, i: nat) {
    i + |pat| <= |s| && s[i..i + |pat|] == pat
  }

  /** Python's `pat in s`. */
  predicate Contains(s: string, pat: string) {
    exists i: nat | i <= |s| :: OccursAt(s, pat, i)
  }

  /** Python's `s.replace(pat, "")`: scanning left to right, each leftmost
      occurrence of `pat` is dropped and the scan resumes right after it, so
      occurrences never overlap. */
  function DeleteAll(s: string, pat: string): (r: string)
    requires pat != []
    ensures |r| <= |s|
    decreases |s|
  {
    if |s| < |pat| then s
    else if StartsWith(s, pat) then DeleteAll(s[|pat|..], pat)
    else [s[0]] + DeleteAll(s[1..], pat)
  }

  /** `remove_triple_backtics`: first every tagged fence, then every bare one. */
  function RemoveTripleBackticks(text: string): (r: string)
    ensures |r| <= |text|
  {
    DeleteAll(DeleteAll(text, PythonFence), Fence)
  }

  // ---------------------------------------------------------------------------
  // Deletion only deletes

  lemma {:induction false} DeleteAllSubsequence(s: string, pat: string)
    requires pat != []
    ensures Subsequence(DeleteAll(s, pat), s)
    decreases |s|
  {
    if |s| < |pat| {
      SubsequenceReflexive(s);
    } else if StartsWith(s, pat) {
      DeleteAllSubsequence(s[|pat|..], pat);
      SubsequenceOfSuffix(DeleteAll(s, pat), s, |pat|);
    } else {
      DeleteAllSubsequence(s[1..], pat);
    }
  }

  /** The output keeps the input's characters in order and adds none. */
  lemma RemoveTripleBackticksDeletesOnly(text: string)
    ensures Subsequence(RemoveTripleBackticks(text), text)
    ensures |RemoveTripleBackticks(text)| <= |text|
  {
    var once := DeleteAll(text, PythonFence);
    DeleteAllSubsequence(text, PythonFence);
    DeleteAllSubsequence(once, Fence);
    SubsequenceTransitive(RemoveTripleBackticks(text), once, text);
    SubsequenceLength(RemoveTripleBackticks(text), text);
  }

  // ---------------------------------------------------------------------------
  // Text without the pattern is left alone

  lemma {:induction false} DeleteAllAbsent(s: string, pat: string)
    requires pat != [] && !Contains(s, pat)
    ensures DeleteAll(s, pat) == s
    decreases |s|
  {
    if |s| >= |pat| {
      assert !OccursAt(s, pat, 0);
      assert !Contains(s[1..], pat) by {
        forall i: nat ensures !OccursAt(s[1..], pat, i) {
          if i + |pat| <= |s[1..]| {
            assert s[1..][i..i + |pat|] == s[i + 1..i + 1 + |pat|];
            assert !OccursAt(s, pat, i + 1);
          }
        }
      }
      DeleteAllAbsent(s[1..], pat);
    }
  }

  /** Every tagged fence starts with a bare fence. */
  lemma TaggedFenceHasFence(s: string)
    requires Contains(s, PythonFence)
    ensures Contains(s, Fence)
  {
    var i: nat :| i <= |s| && OccursAt(s, PythonFence, i);
    assert |PythonFence| == 9 && PythonFence[..3] == Fence;
    assert s[i..i + 3] == s[i..i + 9][..3];
    assert OccursAt(s, Fence, i);
  }

  /** An input without a fence comes back unchanged. */
  lemma RemoveTripleBackticksNoFence(text: string)
    requires !Contains(text, Fence)
    ensures RemoveTripleBackticks(text) == text
  {
    if Contains(text, PythonFence) {
      TaggedFenceHasFence(text);
    }
    DeleteAllAbsent(text, PythonFence);
    DeleteAllAbsent(text, Fence);
  }

  // ---------------------------------------------------------------------------
  // No bare fence survives

  /** A first character that is not a backtick is always kept. */
  lemma FirstCharKept(t: string)
    requires t != [] && t[0] != '`'
    ensures DeleteAll(t, Fence) != [] && DeleteAll(t, Fence)[0] == t[0]
  {
    if |t| >= 3 {
      assert !StartsWith(t, Fence);
    }
  }

  /** After deleting the bare fences, no three backticks remain in a row:
      each run of backticks of length L is left with L % 3 of them. */
  lemma {:induction false} DeleteFenceLeavesNone(s: string)
    ensures !Contains(DeleteAll(s, Fence), Fence)
    decreases |s|
  {
    var r := DeleteAll(s, Fence);
    if |s| < 3 {
      assert r == s;
      forall i: nat ensures !OccursAt(r, Fence, i) {
      }
    } else if StartsWith(s, Fence) {
      DeleteFenceLeavesNone(s[3..]);
    } else {
      var t := s[1..];
      var rt := DeleteAll(t, Fence);
      DeleteFenceLeavesNone(t);
      assert r == [s[0]] + rt;
      forall i: nat ensures !OccursAt(r, Fence, i) {
        if i > 0 {
          if i + 3 <= |r| {
            assert r[i..i + 3] == rt[i - 1..i + 2];
            assert !OccursAt(rt, Fence, i - 1);
          }
        } else if s[0] == '`' && |r| >= 3 {
          // s does not start with a fence, so s[1] or s[2] is not a backtick
          if s[1] != '`' {
            FirstCharKept(t);
            assert r[1] == s[1];
          } else {
            assert s[2] != '`';
            if |t| >= 3 {
              assert !StartsWith(t, Fence);
              FirstCharKept(t[1..]);
              assert rt == [t[0]] + DeleteAll(t[1..], Fence);
            } else {
              assert rt == t;
            }
            assert r[2] == s[2];
          }
          assert r[..3] != Fence;
        }
      }
    }
  }

  /** The stripped text never contains a fence. */
  lemma RemoveTripleBackticksNoFenceLeft(text: string)
    ensures !Contains(RemoveTripleBackticks(text), Fence)
    ensures !Contains(RemoveTripleBackticks(text), PythonFence)
  {
    DeleteFenceLeavesNone(DeleteAll(text, PythonFence));
    if Contains(RemoveTripleBackticks(text), PythonFence) {
      TaggedFenceHasFence(RemoveTripleBackticks(text));
    }
  }

  /** Stripping twice is stripping once. */
  lemma RemoveTripleBackticksIdempotent(text: string)
    ensures RemoveTripleBackticks(RemoveTripleBackticks(text)) == RemoveTripleBackticks(text)
  {
    RemoveTripleBackticksNoFenceLeft(text);
    RemoveTripleBackticksNoFence(RemoveTripleBackticks(text));
  }

  // ---------------------------------------------------------------------------
  // Worked cases

  /** A text that does not start with a backtick keeps its first character
      and goes on with the rest. */
  lemma DeleteFenceKeepsFirst(s: string)
    requires s != [] && s[0] != '`'
    ensures DeleteAll(s, Fence) == [s[0]] + DeleteAll(s[1..], Fence)
  {
    assert |s| >= 3 ==> s[..3][0] != Fence[0];
  }

  /** Text without backticks passes through the bare-fence deletion. */
  lemma {:induction false} DeleteFenceKeepsTickless(a: string, b: string)
    requires '`' !in a
    ensures DeleteAll(a + b, Fence) == a + DeleteAll(b, Fence)
    decreases |a|
  {
    if a != [] {
      var rest, d := a[1..] + b, DeleteAll(b, Fence);
      assert DeleteAll(a + b, Fence) == [a[0]] + DeleteAll(rest, Fence) by {
        assert (a + b)[0] == a[0] && (a + b)[1..] == rest;
        DeleteFenceKeepsFirst(a + b);
      }
      assert DeleteAll(rest, Fence) == a[1..] + d by {
        assert forall x | x in a[1..] :: x in a;
        DeleteFenceKeepsTickless(a[1..], b);
      }
      assert [a[0]] + (a[1..] + d) == a + d;
    } else {
      assert a + b == b;
    }
  }

  /** The tagged fence goes first, so no "python" tag is left behind. */
  lemma FencedBlockExample()
    ensures RemoveTripleBackticks("```python\ncode\n```") == "\ncode\n"
  {
    var s := "```python\ncode\n```";
    assert StartsWith(s, PythonFence);
    var rest := "\ncode\n```";
    assert s[9..] == rest;
    assert !Contains(rest, PythonFence) by {
      forall i: nat | i <= |rest| ensures !OccursAt(rest, PythonFence, i) {
        if i == 0 { assert rest[0] != PythonFence[0]; }
      }
    }
    DeleteAllAbsent(rest, PythonFence);
    assert DeleteAll(s, PythonFence) == rest;
    assert rest == "\ncode\n" + Fence;
    DeleteFenceKeepsTickless("\ncode\n", Fence);
    assert DeleteAll(Fence, Fence) == "";
  }

  /** Leftmost, non-overlapping deletion: six backticks vanish, four leave one. */
  lemma BacktickRunExamples()
    ensures RemoveTripleBackticks("``````") == ""
    ensures RemoveTripleBackticks("````") == "`"
  {
    assert DeleteAll("``````", PythonFence) == "``````";
    assert DeleteAll("````", PythonFence) == "````";
    assert "``````"[3..] == "```";
    assert "````"[3..] == "`";
  }
}
