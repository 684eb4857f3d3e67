/**
 * Sequence names such as "sub16_clothesstand_000": the object is the second
 * `_`-separated field, and a window's surface-encoding cache entry is named
 * `<seq_name>_<window key>`.
 */
module Names {
  import opened Wrappers

  /** Python's `s.split(sep)` with an explicit separator: always at least one
      field, and no field contains the separator. */
  function Split(s: string, sep: char): (fields: seq<string>)
    ensures |fields| >= 1
    ensures forall i :: 0 <= i < |fields| ==> sep !in fields[i]
    decreases |s|
  {
    if |s| == 0 then [""]
    else if s[0] == sep then [""] + Split(s[1..], sep)
    else
      var rest := Split(s[1..], sep);
      [[s[0]] + rest[0]] + rest[1..]
  }

  /** `sep.join(fields)`. */
  function Join(fields: seq<string>, sep: char): string
    decreases |fields|
  {
    if |fields| == 0 then ""
    else if |fields| == 1 then fields[0]
    else fields[0] + [sep] + Join(fields[1..], sep)
  }

  /** Splitting loses nothing: joining the fields back gives the name. */
  lemma {:induction false} JoinSplit(s: string, sep: char)
    ensures Join(Split(s, sep), sep) == s
    decreases |s|
  {
    if |s| > 0 {
      JoinSplit(s[1..], sep);
      var rest := Split(s[1..], sep);
      if s[0] == sep {
        assert ([""] + rest)[1..] == rest;
      } else {
        if |rest| == 1 {
        } else {
          assert ([[s[0]] + rest[0]] + rest[1..])[1..] == rest[1..];
        }
      }
    }
  }

  /** `seq_name.split("_")[1]`, or None where Python raises IndexError. */
  function ObjectName(seqName: string): Option<string> {
    var fields := Split(seqName, '_');
    if |fields| >= 2 then Some(fields[1]) else None
  }

  lemma ObjectNameFound(subject: string, obj: string, rest: string)
    requires '_' !in subject && '_' !in obj
    ensures ObjectName(subject + "_" + obj + "_" + rest) == Some(obj)
  {
    SplitPrefix(subject, obj + "_" + rest);
    SplitPrefix(obj, rest);
    assert subject + "_" + obj + "_" + rest == subject + "_" + (obj + "_" + rest);
  }

  lemma {:induction false} SplitPrefix(head: string, tail: string)
    requires '_' !in head
    ensures Split(head + "_" + tail, '_') == [head] + Split(tail, '_')
    decreases |head|
  {
    if |head| == 0 {
      assert head + "_" + tail == "_" + tail;
      assert ("_" + tail)[1..] == tail;
    } else {
      var s := head + "_" + tail;
      assert s[0] == head[0];
      assert s[1..] == head[1..] + "_" + tail;
      SplitPrefix(head[1..], tail);
      assert [head[0]] + head[1..] == head;
    }
  }

  function DigitChar(d: nat): char
    requires d < 10
  {
    "0123456789"[d]
  }

  /** `str(n)` for a natural number. */
  function NatToString(n: nat): (s: string)
    ensures |s| >= 1
    ensures n >= 10 ==> |s| >= 2
    ensures forall i :: 0 <= i < |s| ==> '0' <= s[i] <= '9'
    decreases n
  {
    if n < 10 then [DigitChar(n)] else NatToString(n / 10) + [DigitChar(n % 10)]
  }

  lemma DigitCharInjective(a: nat, b: nat)
    requires a < 10 && b < 10 && DigitChar(a) == DigitChar(b)
    ensures a == b
  {
  }

  /** Distinct numbers print differently. */
  lemma {:induction false} NatToStringInjective(a: nat, b: nat)
    requires NatToString(a) == NatToString(b)
    ensures a == b
    decreases a
  {
    var s := NatToString(a);
    if a < 10 && b < 10 {
      DigitCharInjective(a, b);
    } else if a >= 10 && b >= 10 {
      assert s[..|s| - 1] == NatToString(a / 10) && s[..|s| - 1] == NatToString(b / 10);
      NatToStringInjective(a / 10, b / 10);
      DigitCharInjective(a % 10, b % 10);
    }
  }

  /** The cache entry name of a window's surface encoding: `seq_name + "_" + str(key)`. */
  function BpsKey(seqName: string, key: nat): string {
    seqName + "_" + NatToString(key)
  }

  lemma LastSeparator(name: string, digits: string)
    requires forall i :: 0 <= i < |digits| ==> '0' <= digits[i] <= '9'
    ensures var s := name + "_" + digits;
      s[|name|] == '_' && forall i :: |name| < i < |s| ==> s[i] != '_'
  {
    var s := name + "_" + digits;
    forall i | |name| < i < |s| ensures s[i] != '_' {
      assert s[i] == digits[i - |name| - 1];
    }
  }

  /** Two windows share a cache entry only when they have the same sequence name
      and the same key: the name is recovered at the last `_`. */
  lemma BpsKeyInjective(n1: string, k1: nat, n2: string, k2: nat)
    requires BpsKey(n1, k1) == BpsKey(n2, k2)
    ensures n1 == n2 && k1 == k2
  {
    var d1, d2 := NatToString(k1), NatToString(k2);
    var s := BpsKey(n1, k1);
    LastSeparator(n1, d1);
    LastSeparator(n2, d2);
    assert |n1| == |n2|;
    assert n1 == s[..|n1|] == n2;
    assert d1 == s[|n1| + 1..] == d2;
    NatToStringInjective(k1, k2);
  }
}
