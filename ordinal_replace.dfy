/** string.Replace(oldValue, newValue) on .NET strings: an ordinal search
    from the left; each match is replaced and the search resumes after it,
    so matches never overlap and a replacement is never searched again. */
module OrdinalReplace {

  /** `key` occurs in `s` starting at index `i`. */
  predicate OccursAt(s: string, key: string, i: nat) {
    i + |key| <= |s| && s[i..i + |key|] == key
  }

  /** `key` occurs somewhere in `s`. */
  predicate Contains(s: string, key: string) {
    exists i: nat :: i <= |s| && OccursAt(s, key, i)
  }

  /** Every occurrence of `key` in `s`, leftmost first, replaced by `value`. */
  function ReplaceAll(s: string, key: string, value: string): string
    requires key != []
    decreases |s|
  {
    if |s| < |key| then s
    else if s[..|key|] == key then value + ReplaceAll(s[|key|..], key, value)
    else [s[0]] + ReplaceAll(s[1..], key, value)
  }

  /** The number of occurrences that ReplaceAll replaces. */
  function Matches(s: string, key: string): nat
    requires key != []
    decreases |s|
  {
    if |s| < |key| then 0
    else if s[..|key|] == key then 1 + Matches(s[|key|..], key)
    else Matches(s[1..], key)
  }

  /** Text that does not hold the key comes back unchanged. */
  lemma {:induction false} ReplaceAllWithoutKey(s: string, key: string, value: string)
    requires key != [] && !Contains(s, key)
    ensures ReplaceAll(s, key, value) == s
    ensures Matches(s, key) == 0
    decreases |s|
  {
    if |s| >= |key| {
      assert !OccursAt(s, key, 0);
      assert s[..|key|] != key;
      var tail := s[1..];
      forall i: nat | i <= |tail| ensures !OccursAt(tail, key, i) {
        if OccursAt(tail, key, i) {
          assert s[i + 1..i + 1 + |key|] == tail[i..i + |key|];
          assert OccursAt(s, key, i + 1);
        }
      }
      ReplaceAllWithoutKey(tail, key, value);
      assert s == [s[0]] + tail;
    }
  }

  /** Replacing a key by itself changes nothing. */
  lemma {:induction false} ReplaceAllBySelf(s: string, key: string)
    requires key != []
    ensures ReplaceAll(s, key, key) == s
    decreases |s|
  {
    if |s| >= |key| {
      if s[..|key|] == key {
        ReplaceAllBySelf(s[|key|..], key);
        assert s == s[..|key|] + s[|key|..];
      } else {
        ReplaceAllBySelf(s[1..], key);
        assert s == [s[0]] + s[1..];
      }
    }
  }

  /** Text that is exactly the key becomes exactly the value. */
  lemma ReplaceAllWholeKey(key: string, value: string)
    requires key != []
    ensures ReplaceAll(key, key, value) == value
  {
    assert key[..|key|] == key && key[|key|..] == [];
    assert value + [] == value;
  }

  /** Each replaced occurrence trades |key| characters for |value| ones. */
  lemma {:induction false} ReplaceAllLength(s: string, key: string, value: string)
    requires key != []
    ensures |ReplaceAll(s, key, value)| + Matches(s, key) * |key| == |s| + Matches(s, key) * |value|
    decreases |s|
  {
    if |s| >= |key| {
      if s[..|key|] == key {
        var rest := s[|key|..];
        ReplaceAllLength(rest, key, value);
        var r, m := ReplaceAll(rest, key, value), Matches(rest, key);
        assert |ReplaceAll(s, key, value)| == |value| + |r|;
        assert Matches(s, key) == m + 1;
        MulSucc(m, |key|);
        MulSucc(m, |value|);
      } else {
        ReplaceAllLength(s[1..], key, value);
      }
    }
  }

  lemma MulSucc(m: nat, n: nat)
    ensures (m + 1) * n == m * n + n
  {
  }

  /** An occurrence in the tail is an occurrence one place later in the text. */
  lemma OccursInTail(s: string, key: string, i: nat)
    requires s != []
    ensures OccursAt(s[1..], key, i) <==> OccursAt(s, key, i + 1)
  {
    if i + |key| <= |s[1..]| {
      assert s[1..][i..i + |key|] == s[i + 1..i + 1 + |key|];
    }
  }

  /** A key at the front is replaced, and the search resumes after it. */
  lemma ReplaceAllAtFront(s: string, key: string, value: string)
    requires key != [] && OccursAt(s, key, 0)
    ensures ReplaceAll(s, key, value) == value + ReplaceAll(s[|key|..], key, value)
  {
    assert s[..|key|] == s[0..|key|];
  }

  /** A first character that starts no key is kept. */
  lemma ReplaceAllSkipsFirst(s: string, key: string, value: string)
    requires key != [] && |key| <= |s| && !OccursAt(s, key, 0)
    ensures ReplaceAll(s, key, value) == [s[0]] + ReplaceAll(s[1..], key, value)
  {
    assert s[..|key|] == s[0..|key|];
  }

  /** The leftmost occurrence is the one replaced: the text before it is kept,
      the value takes the key's place, and the search resumes after it. */
  lemma {:induction false} ReplaceAllLeftmost(s: string, key: string, value: string, p: nat)
    requires key != [] && OccursAt(s, key, p)
    requires forall i: nat :: i < p ==> !OccursAt(s, key, i)
    ensures ReplaceAll(s, key, value) == s[..p] + value + ReplaceAll(s[p + |key|..], key, value)
    decreases p
  {
    if p == 0 {
      ReplaceAllAtFront(s, key, value);
      assert s[..0] + value == value;
    } else {
      var tail := s[1..];
      var after := ReplaceAll(s[p + |key|..], key, value);
      OccursInTail(s, key, p - 1);
      forall i: nat | i < p - 1 ensures !OccursAt(tail, key, i) {
        OccursInTail(s, key, i);
      }
      calc {
        ReplaceAll(s, key, value);
        { ReplaceAllSkipsFirst(s, key, value); }
        [s[0]] + ReplaceAll(tail, key, value);
        { ReplaceAllLeftmost(tail, key, value, p - 1);
          assert tail[p - 1 + |key|..] == s[p + |key|..]; }
        [s[0]] + (tail[..p - 1] + value + after);
        { RejoinFirst(s, p, value, after); }
        s[..p] + value + after;
      }
    }
  }

  lemma RejoinFirst(s: string, p: nat, value: string, after: string)
    requires 1 <= p <= |s|
    ensures [s[0]] + (s[1..][..p - 1] + value + after) == s[..p] + value + after
  {
    assert [s[0]] + s[1..][..p - 1] == s[..p];
  }

  lemma MulDiffers(m: nat, a: nat, b: nat)
    requires m >= 1 && a != b
    ensures m * a != m * b
  {
    if a < b {
      assert m * b == m * a + m * (b - a);
    } else {
      assert m * a == m * b + m * (a - b);
    }
  }

  /** Text holding the key is changed unless the value is the key itself. */
  lemma {:induction false} ReplaceAllChanges(s: string, key: string, value: string)
    requires key != [] && Contains(s, key) && value != key
    ensures ReplaceAll(s, key, value) != s
    decreases |s|
  {
    var i: nat :| i <= |s| && OccursAt(s, key, i);
    if s[..|key|] == key {
      var r := ReplaceAll(s[|key|..], key, value);
      assert ReplaceAll(s, key, value) == value + r;
      if |value| == |key| {
        assert (value + r)[..|key|] == value;
      } else {
        ReplaceAllLength(s, key, value);
        MulDiffers(Matches(s, key), |key|, |value|);
      }
    } else {
      assert i != 0;
      var tail := s[1..];
      OccursInTail(s, key, i - 1);
      ReplaceAllChanges(tail, key, value);
      assert ReplaceAll(s, key, value) == [s[0]] + ReplaceAll(tail, key, value);
      assert s == [s[0]] + tail;
    }
  }

  /** Replacing leaves the text unchanged exactly when the key does not occur
      in it or the value is the key. */
  lemma ReplaceAllUnchanged(s: string, key: string, value: string)
    requires key != []
    ensures ReplaceAll(s, key, value) == s <==> !Contains(s, key) || value == key
  {
    if !Contains(s, key) {
      ReplaceAllWithoutKey(s, key, value);
    } else if value == key {
      ReplaceAllBySelf(s, key);
    } else {
      ReplaceAllChanges(s, key, value);
    }
  }

  /** The key "{{NAME}}" with value "Ann" turns "Hi {{NAME}}" into "Hi Ann". */
  lemma ReplaceAllNamePlaceholder()
    ensures ReplaceAll("Hi {{NAME}}", "{{NAME}}", "Ann") == "Hi Ann"
  {
    var key := "{{NAME}}";
    assert "i {{NAME}}"[1..] == " {{NAME}}" && " {{NAME}}"[1..] == key;
    ReplaceAllWholeKey(key, "Ann");
    assert "Hi {{NAME}}"[..|key|] != key by { assert "Hi {{NAME}}"[0] != key[0]; }
    assert "i {{NAME}}"[..|key|] != key by { assert "i {{NAME}}"[0] != key[0]; }
    assert " {{NAME}}"[..|key|] != key by { assert " {{NAME}}"[0] != key[0]; }
    assert "Hi {{NAME}}"[1..] == "i {{NAME}}";
  }
}
