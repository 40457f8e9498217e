/**
 * Line-level lookup of settings in the metrics config file: the file is a
 * sequence of lines, and a setting `key` is held by a line of the form
 * `key=value`.
 */
module ConfigLines {
  import opened Wrappers

  /** `String.startsWith`. */
  predicate StartsWith(s: string, prefix: string) {
    prefix <= s
  }

  /** A line holds a value for `key` when it starts with `key=`. */
  predicate IsSettingLine(key: string, line: string) {
    StartsWith(line, key + "=")
  }

  /** No line of `lines` holds a value for `key`. */
  ghost predicate NoSettingLine(key: string, lines: seq<string>) {
    forall i :: 0 <= i < |lines| ==> !IsSettingLine(key, lines[i])
  }

  /** Line `i` is the first line of `lines` that holds a value for `key`. */
  ghost predicate FirstSettingLine(key: string, lines: seq<string>, i: int) {
    0 <= i < |lines| && IsSettingLine(key, lines[i]) &&
    forall j :: 0 <= j < i ==> !IsSettingLine(key, lines[j])
  }

  /** `pat` occurs in `s` starting at index `k`. */
  ghost predicate OccursAt(s: string, pat: string, k: int) {
    0 <= k && k + |pat| <= |s| && s[k..k + |pat|] == pat
  }

  /** `k` is the leftmost index at which `pat` occurs in `s`. */
  ghost predicate FirstOccurrence(s: string, pat: string, k: int) {
    OccursAt(s, pat, k) && forall j :: 0 <= j < k ==> !OccursAt(s, pat, j)
  }

  /** Occurrences in `s[1..]` are the occurrences in `s` shifted left by one. */
  lemma OccursAtTail(s: string, pat: string)
    requires |s| > 0
    ensures forall k :: 0 <= k ==> (OccursAt(s[1..], pat, k) <==> OccursAt(s, pat, k + 1))
  {
    forall k | 0 <= k
      ensures OccursAt(s[1..], pat, k) <==> OccursAt(s, pat, k + 1)
    {
      if k + |pat| <= |s| - 1 {
        assert s[1..][k..k + |pat|] == s[k + 1..k + 1 + |pat|];
      }
    }
  }

  /**
   * `s.replaceFirst(Pattern.quote(pat), repl)`: the quoted pattern matches
   * `pat` literally, so the leftmost occurrence of `pat` is replaced by
   * `repl` (which here never contains `$` or `\`); without an occurrence
   * the string is returned unchanged (ReplaceFirstLiteralAt and
   * ReplaceFirstLiteralAbsent).
   */
  function ReplaceFirstLiteral(s: string, pat: string, repl: string): string
    decreases |s|
  {
    if pat <= s then repl + s[|pat|..]
    else if s == [] then s
    else [s[0]] + ReplaceFirstLiteral(s[1..], pat, repl)
  }

  /** The leftmost occurrence of `pat`, and only that one, is replaced. */
  lemma {:induction false} ReplaceFirstLiteralAt(s: string, pat: string, repl: string, k: int)
    requires FirstOccurrence(s, pat, k)
    ensures ReplaceFirstLiteral(s, pat, repl) == s[..k] + repl + s[k + |pat|..]
    decreases |s|
  {
    if pat <= s {
      assert OccursAt(s, pat, 0);
      assert k == 0;
    } else {
      assert !OccursAt(s, pat, 0);
      assert k > 0;
      OccursAtTail(s, pat);
      assert FirstOccurrence(s[1..], pat, k - 1) by {
        forall j | 0 <= j < k - 1 ensures !OccursAt(s[1..], pat, j) {
          assert !OccursAt(s, pat, j + 1);
        }
      }
      ReplaceFirstLiteralAt(s[1..], pat, repl, k - 1);
      var front, back := s[1..][..k - 1], s[1..][k - 1 + |pat|..];
      assert s[..k] == [s[0]] + front;
      assert s[k + |pat|..] == back;
      calc {
        ReplaceFirstLiteral(s, pat, repl);
        [s[0]] + ReplaceFirstLiteral(s[1..], pat, repl);
        [s[0]] + (front + repl + back);
        ([s[0]] + front) + repl + back;
      }
    }
  }

  /** Without an occurrence of `pat`, the string is returned unchanged. */
  lemma {:induction false} ReplaceFirstLiteralAbsent(s: string, pat: string, repl: string)
    requires forall k :: !OccursAt(s, pat, k)
    ensures ReplaceFirstLiteral(s, pat, repl) == s
    decreases |s|
  {
    assert !OccursAt(s, pat, 0);
    if s != [] {
      OccursAtTail(s, pat);
      assert forall k :: !OccursAt(s[1..], pat, k) by {
        forall k ensures !OccursAt(s[1..], pat, k) {
          if 0 <= k { assert !OccursAt(s, pat, k + 1); }
        }
      }
      ReplaceFirstLiteralAbsent(s[1..], pat, repl);
    }
  }

  /**
   * On a line that starts with the prefix, the literal `replaceFirst` of the
   * prefix by the empty string strips exactly that leading prefix.
   */
  lemma StripLeadingPrefix(line: string, prefix: string)
    requires StartsWith(line, prefix)
    ensures ReplaceFirstLiteral(line, prefix, "") == line[|prefix|..]
  {
    assert FirstOccurrence(line, prefix, 0);
    ReplaceFirstLiteralAt(line, prefix, "", 0);
  }

  /**
   * `getConfigValue(key, lines)`: the first line that starts with `key=`,
   * with that `key=` replaced by the empty string, or None when no line
   * starts with `key=` (GetConfigValueSpec).
   */
  function GetConfigValue(key: string, lines: seq<string>): Option<string> {
    if lines == [] then None
    else if IsSettingLine(key, lines[0]) then Some(ReplaceFirstLiteral(lines[0], key + "=", ""))
    else GetConfigValue(key, lines[1..])
  }

  /**
   * The lookup is None exactly when no line starts with `key=`, and
   * otherwise the first such line without its leading `key=`.
   */
  lemma {:induction false} GetConfigValueSpec(key: string, lines: seq<string>)
    ensures GetConfigValue(key, lines).None? <==> NoSettingLine(key, lines)
    ensures forall i :: FirstSettingLine(key, lines, i) ==>
              GetConfigValue(key, lines) == Some(lines[i][|key| + 1..])
  {
    if lines == [] {
    } else if IsSettingLine(key, lines[0]) {
      StripLeadingPrefix(lines[0], key + "=");
      assert forall i :: FirstSettingLine(key, lines, i) ==> i == 0;
    } else {
      GetConfigValueSpec(key, lines[1..]);
      assert NoSettingLine(key, lines) <==> NoSettingLine(key, lines[1..]) by {
        assert forall i :: 0 < i < |lines| ==> lines[1..][i - 1] == lines[i];
      }
      assert forall i :: FirstSettingLine(key, lines, i) ==> i > 0 && FirstSettingLine(key, lines[1..], i - 1);
    }
  }

  /** A line that differs from `key` at some position holds no value for it. */
  lemma MismatchAt(key: string, line: string, k: int)
    requires 0 <= k < |key| && k < |line| && key[k] != line[k]
    ensures !IsSettingLine(key, line)
  {
    assert (key + "=")[k] == key[k];
  }

  /** A line `key=value` that is the first line for `key` gives `value`. */
  lemma LookupAt(key: string, lines: seq<string>, j: int, value: string)
    requires FirstSettingLine(key, lines, j) && lines[j] == key + "=" + value
    ensures GetConfigValue(key, lines) == Some(value)
  {
    GetConfigValueSpec(key, lines);
    assert (key + "=" + value)[|key| + 1..] == value;
  }

  /** Whenever some line holds a value for `key`, there is a first such line. */
  lemma {:induction false} FirstSettingLineExists(key: string, lines: seq<string>)
    requires !NoSettingLine(key, lines)
    ensures exists i :: FirstSettingLine(key, lines, i)
  {
    if IsSettingLine(key, lines[0]) {
      assert FirstSettingLine(key, lines, 0);
    } else {
      assert !NoSettingLine(key, lines[1..]) by {
        var i :| 0 <= i < |lines| && IsSettingLine(key, lines[i]);
        assert lines[1..][i - 1] == lines[i];
      }
      FirstSettingLineExists(key, lines[1..]);
      var i :| FirstSettingLine(key, lines[1..], i);
      assert FirstSettingLine(key, lines, i + 1);
    }
  }

  /**
   * First match wins: lines after the first block that holds a value for
   * `key` never influence the lookup, and a block without one is skipped.
   */
  lemma {:induction false} LookupOfConcat(key: string, front: seq<string>, back: seq<string>)
    ensures GetConfigValue(key, front + back) ==
            if GetConfigValue(key, front).Some? then GetConfigValue(key, front)
            else GetConfigValue(key, back)
  {
    if front == [] {
      assert front + back == back;
    } else {
      assert (front + back)[0] == front[0];
      assert (front + back)[1..] == front[1..] + back;
      LookupOfConcat(key, front[1..], back);
    }
  }
}
