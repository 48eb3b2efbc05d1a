/**
 * The pure string and JSON helpers of the storefront's utility module:
 * `truncateText`, `calculateDiscount`, `getInitials`, `snakeToCamel` and
 * `convertKeysToCamel`.
 */
module Utils {
  import opened Wrappers
  import opened Js
  import Seqs
  import Text

  // ---------------------------------------------------------------------
  // truncateText
  // ---------------------------------------------------------------------

  /** Where `slice(0, n)` stops on a string of length `len`: a negative `n` counts from the end. */
  function SliceEnd(len: nat, n: int): (e: nat)
    ensures e <= len
    ensures 0 <= n ==> e == if n <= len then n else len
    ensures n < 0 ==> e == if len + n > 0 then len + n else 0
  {
    if n < 0 then (if len + n > 0 then len + n else 0)
    else if n <= len then n
    else len
  }

  const Ellipsis := "..."

  /** `truncateText(text, maxLength)` for an integral `maxLength`. */
  function Truncated(text: string, maxLength: int): (r: string)
    ensures |text| <= maxLength ==> r == text
    ensures maxLength < |text| ==> exists k :: 0 <= k <= |text| && r == text[..k] + "..."
    ensures 0 <= maxLength < |text| ==>
      |r| == maxLength + 3 && r[..maxLength] == text[..maxLength] && r[maxLength..] == "..."
    ensures 0 <= maxLength ==> |r| <= maxLength + 3
  {
    if |text| <= maxLength then text
    else text[..SliceEnd(|text|, maxLength)] + Ellipsis
  }

  /** Truncating an already truncated text changes nothing. */
  lemma TruncatedIdempotent(text: string, maxLength: nat)
    ensures Truncated(Truncated(text, maxLength), maxLength) == Truncated(text, maxLength)
  {
    if maxLength < |text| {
      var r := Truncated(text, maxLength);
      assert r[..maxLength] == text[..maxLength];
      assert Truncated(r, maxLength) == r[..maxLength] + "...";
    }
  }

  /** A negative limit does not yield an empty prefix: `slice` counts it from the end. */
  lemma NegativeLimitCountsFromEnd()
    ensures Truncated("abcd", -1) == "abc..."
    ensures |Truncated("abcd", -1)| > -1 + 3
  {
    assert "abcd"[..3] == "abc";
  }

  // ---------------------------------------------------------------------
  // calculateDiscount
  // ---------------------------------------------------------------------

  /** `Math.round`: the nearest integer, halves rounded up. */
  function Round(x: real): (r: int)
    ensures x - 0.5 < r as real <= x + 0.5
  {
    (x + 0.5).Floor
  }

  /** The exact percentage saved, before rounding. */
  function Saving(original: real, current: real): real
    requires original != 0.0
  {
    (original - current) / original * 100.0
  }

  /** `calculateDiscount(originalPrice, currentPrice)` over exact reals. */
  function Discount(original: real, current: real): (r: int)
    ensures original <= 0.0 || current >= original ==> r == 0
    ensures 0.0 < original && current < original ==>
      Saving(original, current) - 0.5 < r as real <= Saving(original, current) + 0.5
    ensures 0 <= r
    ensures 0.0 <= current ==> r <= 100
  {
    if original <= 0.0 || current >= original then 0
    else
      SavingBounds(original, current);
      Round(Saving(original, current))
  }

  lemma SavingBounds(original: real, current: real)
    requires 0.0 < original && current < original
    ensures 0.0 < Saving(original, current)
    ensures 0.0 <= current ==> Saving(original, current) <= 100.0
  {
    var q := (original - current) / original;
    assert q * original == original - current;
    if 0.0 <= current {
      assert q <= 1.0;
    }
  }

  /** A lower current price never yields a smaller discount. */
  lemma DiscountMonotone(original: real, lower: real, higher: real)
    requires lower <= higher
    ensures Discount(original, lower) >= Discount(original, higher)
  {
    if 0.0 < original && higher < original {
      var ql := (original - lower) / original;
      var qh := (original - higher) / original;
      assert ql * original == original - lower;
      assert qh * original == original - higher;
      assert qh <= ql;
      FloorMonotone(Saving(original, higher) + 0.5, Saving(original, lower) + 0.5);
    }
  }

  lemma FloorMonotone(x: real, y: real)
    requires x <= y
    ensures x.Floor <= y.Floor
  {
  }

  // ---------------------------------------------------------------------
  // getInitials
  // ---------------------------------------------------------------------

  /** `charAt(0)` of each part, concatenated; an empty part contributes nothing. */
  function Heads(parts: seq<string>): (r: string)
    ensures |r| <= |parts|
    decreases |parts|
  {
    if |parts| == 0 then ""
    else (if |parts[0]| > 0 then parts[0][..1] else "") + Heads(parts[1..])
  }

  /** `getInitials(name)`. Upper-casing is the ASCII mapping of `Text.Upper`. */
  function Initials(name: string): (r: string)
    ensures |r| <= |Text.Split(name, ' ')|
  {
    Text.Upper(Heads(Text.Split(name, ' ')))
  }

  /** Dropping empty parts does not change the initials. */
  lemma {:induction false} HeadsIgnoresEmpty(parts: seq<string>)
    ensures Heads(parts) == Heads(Seqs.Filter(parts, Text.NotEmpty()))
    decreases |parts|
  {
    if |parts| > 0 {
      HeadsIgnoresEmpty(parts[1..]);
      var rest := Seqs.Filter(parts[1..], Text.NotEmpty());
      if parts[0] != "" {
        assert Seqs.Filter(parts, Text.NotEmpty()) == [parts[0]] + rest;
        assert ([parts[0]] + rest)[1..] == rest;
        assert ([parts[0]] + rest)[0] == parts[0];
      } else {
        assert Seqs.Filter(parts, Text.NotEmpty()) == rest;
        assert Heads(parts) == Heads(parts[1..]);
      }
    }
  }

  /** Over non-empty parts, the initials are exactly their first characters. */
  lemma {:induction false} HeadsOfWords(words: seq<string>)
    requires forall i :: 0 <= i < |words| ==> words[i] != ""
    ensures |Heads(words)| == |words|
    ensures forall i :: 0 <= i < |words| ==> Heads(words)[i] == words[i][0]
    decreases |words|
  {
    if |words| > 0 {
      HeadsOfWords(words[1..]);
      var h := Heads(words);
      assert h == [words[0][0]] + Heads(words[1..]);
      forall i | 0 < i < |words| ensures h[i] == words[i][0] {
        assert h[i] == Heads(words[1..])[i - 1];
        assert words[1..][i - 1] == words[i];
      }
    }
  }

  /** One upper-cased letter per word, in order; runs of spaces add nothing. */
  lemma InitialsOfWords(name: string)
    ensures |Initials(name)| == |Text.Segments(name, ' ')|
    ensures forall i :: 0 <= i < |Initials(name)| ==>
      Initials(name)[i] == Text.UpperChar(Text.Segments(name, ' ')[i][0])
  {
    var words := Text.Segments(name, ' ');
    HeadsIgnoresEmpty(Text.Split(name, ' '));
    HeadsOfWords(words);
  }

  // ---------------------------------------------------------------------
  // snakeToCamel
  // ---------------------------------------------------------------------

  predicate IsDashOrUnderscore(c: char) { c == '-' || c == '_' }

  /** The regular expression `[-_][a-z]` matches at position `i`. */
  predicate PairAt(s: string, i: int) {
    0 <= i && i + 1 < |s| && IsDashOrUnderscore(s[i]) && Text.IsLowerAscii(s[i + 1])
  }

  predicate NoPair(s: string) {
    forall i :: 0 <= i < |s| ==> !PairAt(s, i)
  }

  /**
   * `snakeToCamel(s)`: a left-to-right, non-overlapping scan that replaces each
   * match of `[-_][a-z]` by the upper-cased letter.
   */
  function Camel(s: string): (r: string)
    ensures |r| <= |s|
    decreases |s|
  {
    if |s| == 0 then ""
    else if PairAt(s, 0) then [Text.UpperChar(s[1])] + Camel(s[2..])
    else [s[0]] + Camel(s[1..])
  }

  lemma NoPairTail(s: string)
    requires |s| > 0 && NoPair(s)
    ensures NoPair(s[1..])
  {
    forall i | 0 <= i < |s[1..]| ensures !PairAt(s[1..], i) {
      assert !PairAt(s, i + 1);
    }
  }

  /** A string with no `[-_][a-z]` pair is left unchanged. */
  lemma {:induction false} CamelNoPairUnchanged(s: string)
    requires NoPair(s)
    ensures Camel(s) == s
    decreases |s|
  {
    if |s| > 0 {
      assert !PairAt(s, 0);
      NoPairTail(s);
      CamelNoPairUnchanged(s[1..]);
      assert s == [s[0]] + s[1..];
    }
  }

  /** A result never starts with a lower-case letter unless the input does. */
  lemma CamelFirst(t: string)
    requires |t| > 0 && !Text.IsLowerAscii(t[0])
    ensures |Camel(t)| > 0 && !Text.IsLowerAscii(Camel(t)[0])
  {
  }

  /** The result contains no further pair to rewrite. */
  lemma {:induction false} CamelHasNoPair(s: string)
    ensures NoPair(Camel(s))
    decreases |s|
  {
    if |s| > 0 {
      var r := Camel(s);
      if PairAt(s, 0) {
        CamelHasNoPair(s[2..]);
        var rest := Camel(s[2..]);
        assert r == [Text.UpperChar(s[1])] + rest;
        forall i | 0 <= i < |r| ensures !PairAt(r, i) {
          if i > 0 {
            assert !PairAt(rest, i - 1);
          }
        }
      } else {
        CamelHasNoPair(s[1..]);
        var rest := Camel(s[1..]);
        assert r == [s[0]] + rest;
        forall i | 0 <= i < |r| ensures !PairAt(r, i) {
          if i > 0 {
            assert !PairAt(rest, i - 1);
          } else if |rest| > 0 && IsDashOrUnderscore(s[0]) {
            CamelFirst(s[1..]);
          }
        }
      }
    }
  }

  /** Converting twice is converting once. */
  lemma CamelIdempotent(s: string)
    ensures Camel(Camel(s)) == Camel(s)
  {
    CamelHasNoPair(s);
    CamelNoPairUnchanged(Camel(s));
  }

  /** A snake-case key becomes camel case. */
  lemma CamelSnakeExample()
    ensures Camel("user_id") == "userId"
  {
    var s := "user_id";
    assert s[4..] == "_id";
    assert "_id"[2..] == "d";
    assert Camel("d") == "d";
    assert Camel("_id") == "Id";
    assert s[1..][1..][1..][1..] == "_id";
  }

  /** Only the second character of a separator pair is raised; the first stays. */
  lemma CamelPairExamples()
    ensures Camel("x_-y") == "x_Y"
    ensures Camel("a_B") == "a_B"
  {
    assert "x_-y"[1..] == "_-y";
    assert "x_-y"[1..][1..] == "-y";
    assert "a_B"[1..] == "_B";
  }

  // ---------------------------------------------------------------------
  // convertKeysToCamel
  // ---------------------------------------------------------------------

  /** `acc[key] = value` on a plain object: overwrite in place, or append. */
  function Put(acc: seq<Member>, key: string, value: Json): (r: seq<Member>)
    ensures MemberIndex(acc, key).Some? ==> |r| == |acc| && r[MemberIndex(acc, key).value] == Member(key, value)
    ensures MemberIndex(acc, key).Some? ==>
      forall i :: 0 <= i < |acc| && i != MemberIndex(acc, key).value ==> r[i] == acc[i]
    ensures MemberIndex(acc, key).None? ==> r == acc + [Member(key, value)]
  {
    match MemberIndex(acc, key)
    case Some(i) => acc[i := Member(key, value)]
    case None => acc + [Member(key, value)]
  }

  /** The `reduce` over the renamed members, starting from `acc`. */
  function Collected(acc: seq<Member>, pairs: seq<Member>): seq<Member>
    decreases |pairs|
  {
    if |pairs| == 0 then acc
    else Collected(Put(acc, pairs[0].key, pairs[0].value), pairs[1..])
  }

  /** `convertKeysToCamel(obj)`; `undefined` is not a JSON value and is not modelled. */
  function KeysToCamel(j: Json): (r: Json)
    ensures !j.JArr? && !j.JObj? ==> r == j
    ensures j.JArr? ==> (r.JArr? && |r.elems| == |j.elems| &&
      forall i :: 0 <= i < |j.elems| ==> r.elems[i] == KeysToCamel(j.elems[i]))
    ensures j.JObj? ==> r.JObj? && DistinctKeys(r.members)
    decreases j
  {
    match j
    case JArr(es) => JArr(seq(|es|, i requires 0 <= i < |es| => KeysToCamel(es[i])))
    case JObj(ms) =>
      var renamed := Renamed(ms);
      CollectedDistinct([], renamed);
      JObj(Collected([], renamed))
    case _ => j
  }

  /** Each member under its camel-cased key, with its value converted. */
  function Renamed(ms: seq<Member>): (r: seq<Member>)
    ensures |r| == |ms|
    decreases ms
  {
    seq(|ms|, i requires 0 <= i < |ms| => Member(Camel(ms[i].key), KeysToCamel(ms[i].value)))
  }

  predicate DistinctKeys(ms: seq<Member>) {
    forall i, k :: 0 <= i < k < |ms| ==> ms[i].key != ms[k].key
  }

  lemma PutDistinct(acc: seq<Member>, key: string, value: Json)
    requires DistinctKeys(acc)
    ensures DistinctKeys(Put(acc, key, value))
  {
  }

  lemma {:induction false} CollectedDistinct(acc: seq<Member>, pairs: seq<Member>)
    requires DistinctKeys(acc)
    ensures DistinctKeys(Collected(acc, pairs))
    decreases |pairs|
  {
    if |pairs| > 0 {
      PutDistinct(acc, pairs[0].key, pairs[0].value);
      CollectedDistinct(Put(acc, pairs[0].key, pairs[0].value), pairs[1..]);
    }
  }

  /** Whatever holds of every pair and of the start holds of every collected member. */
  lemma {:induction false} CollectedKeeps(acc: seq<Member>, pairs: seq<Member>, p: Member -> bool)
    requires forall i :: 0 <= i < |acc| ==> p(acc[i])
    requires forall i :: 0 <= i < |pairs| ==> p(pairs[i])
    ensures forall i :: 0 <= i < |Collected(acc, pairs)| ==> p(Collected(acc, pairs)[i])
    decreases |pairs|
  {
    if |pairs| > 0 {
      var next := Put(acc, pairs[0].key, pairs[0].value);
      assert forall i :: 0 <= i < |next| ==> p(next[i]);
      CollectedKeeps(next, pairs[1..], p);
    }
  }

  /** Members with distinct keys are collected back in the same order. */
  lemma {:induction false} CollectedDistinctIsAppend(acc: seq<Member>, pairs: seq<Member>)
    requires DistinctKeys(acc + pairs)
    ensures Collected(acc, pairs) == acc + pairs
    decreases |pairs|
  {
    if |pairs| > 0 {
      assert (acc + pairs)[|acc|] == pairs[0];
      forall i | 0 <= i < |acc| ensures acc[i].key != pairs[0].key {
        assert (acc + pairs)[i] == acc[i];
      }
      var next := acc + [pairs[0]];
      assert Put(acc, pairs[0].key, pairs[0].value) == next;
      assert next + pairs[1..] == acc + pairs;
      CollectedDistinctIsAppend(next, pairs[1..]);
    }
  }

  /** An object whose camel-cased keys do not collide keeps its renamed members in order. */
  lemma KeysToCamelNoCollision(ms: seq<Member>)
    requires DistinctKeys(Renamed(ms))
    ensures KeysToCamel(JObj(ms)) == JObj(Renamed(ms))
  {
    assert [] + Renamed(ms) == Renamed(ms);
    CollectedDistinctIsAppend([], Renamed(ms));
  }

  /** No pair after position `i` is named `k`. */
  predicate LastWith(pairs: seq<Member>, i: nat, k: string) {
    forall j :: i < j < |pairs| ==> pairs[j].key != k
  }

  /** The value of the last pair named `k`: the one a run of `acc[k] = v` leaves behind. */
  function LastValue(pairs: seq<Member>, k: string): (r: Option<Json>)
    ensures r.None? <==> forall i :: 0 <= i < |pairs| ==> pairs[i].key != k
    ensures r.Some? ==> exists i :: 0 <= i < |pairs| && pairs[i] == Member(k, r.value) && LastWith(pairs, i, k)
    decreases |pairs|
  {
    if |pairs| == 0 then None
    else
      var later := LastValue(pairs[1..], k);
      if later.Some? then
        assert forall j :: 1 <= j < |pairs| ==> pairs[j] == pairs[1..][j - 1];
        later
      else if pairs[0].key == k then
        assert forall j :: 1 <= j < |pairs| ==> pairs[j] == pairs[1..][j - 1];
        Some(pairs[0].value)
      else
        assert forall j :: 1 <= j < |pairs| ==> pairs[j] == pairs[1..][j - 1];
        None
  }

  /** Two member lists with the same keys, position by position, find a key at the same place. */
  lemma MemberIndexSameKeys(a: seq<Member>, b: seq<Member>, k: string)
    requires |a| == |b| && forall i :: 0 <= i < |a| ==> a[i].key == b[i].key
    ensures MemberIndex(a, k) == MemberIndex(b, k)
  {
    if MemberIndex(a, k).Some? {
      assert b[MemberIndex(a, k).value].key == k;
    }
  }

  /** Reading a property after `acc[key] = value`. */
  lemma PutLookup(acc: seq<Member>, key: string, value: Json, k: string)
    ensures Get(Some(JObj(Put(acc, key, value))), k) ==
      if k == key then Some(value) else Get(Some(JObj(acc)), k)
  {
    var r := Put(acc, key, value);
    match MemberIndex(acc, key)
    case Some(i) =>
      MemberIndexSameKeys(r, acc, k);
    case None =>
      if MemberIndex(acc, k).Some? {
        assert r[MemberIndex(acc, k).value] == acc[MemberIndex(acc, k).value];
        assert MemberIndex(r, k) == MemberIndex(acc, k);
      } else {
        assert r[|acc|].key == key;
        if k == key {
          assert MemberIndex(r, k) == Some(|acc|);
        } else {
          assert forall i :: 0 <= i < |r| ==> r[i].key != k;
        }
      }
  }

  /** After the `reduce`, a key reads as the last pair with it, or as it did in `acc`. */
  lemma {:induction false} CollectedLookup(acc: seq<Member>, pairs: seq<Member>, k: string)
    ensures Get(Some(JObj(Collected(acc, pairs))), k) ==
      if LastValue(pairs, k).Some? then LastValue(pairs, k) else Get(Some(JObj(acc)), k)
    decreases |pairs|
  {
    if |pairs| > 0 {
      var next := Put(acc, pairs[0].key, pairs[0].value);
      CollectedLookup(next, pairs[1..], k);
      PutLookup(acc, pairs[0].key, pairs[0].value, k);
    }
  }

  /**
   * What an object converts to, key by key: a key is present exactly when some
   * input key camel-cases to it, and it reads as the converted value of the
   * last such member (later keys overwrite earlier ones).
   */
  lemma KeysToCamelObject(ms: seq<Member>, k: string)
    ensures Get(Some(KeysToCamel(JObj(ms))), k) == LastValue(Renamed(ms), k)
    ensures Get(Some(KeysToCamel(JObj(ms))), k).None? <==> forall i :: 0 <= i < |ms| ==> Camel(ms[i].key) != k
    ensures Get(Some(KeysToCamel(JObj(ms))), k).Some? ==>
      exists i :: 0 <= i < |ms| && Camel(ms[i].key) == k && LastWith(Renamed(ms), i, k) &&
        Get(Some(KeysToCamel(JObj(ms))), k).value == KeysToCamel(ms[i].value)
  {
    var renamed := Renamed(ms);
    CollectedLookup([], renamed, k);
    assert forall i :: 0 <= i < |ms| ==> renamed[i].key == Camel(ms[i].key);
  }

  /** Every key of the converted object comes from an input key, and every input key is kept camel-cased. */
  lemma KeysToCamelKeys(ms: seq<Member>)
    ensures forall m :: m in KeysToCamel(JObj(ms)).members ==> exists i :: 0 <= i < |ms| && Camel(ms[i].key) == m.key
    ensures forall i :: 0 <= i < |ms| ==> Get(Some(KeysToCamel(JObj(ms))), Camel(ms[i].key)).Some?
  {
    var r := KeysToCamel(JObj(ms));
    forall m | m in r.members ensures exists i :: 0 <= i < |ms| && Camel(ms[i].key) == m.key {
      KeysToCamelObject(ms, m.key);
      var x :| 0 <= x < |r.members| && r.members[x] == m;
      assert MemberIndex(r.members, m.key).Some?;
    }
    forall i | 0 <= i < |ms| ensures Get(Some(r), Camel(ms[i].key)).Some? {
      KeysToCamelObject(ms, Camel(ms[i].key));
    }
  }

  /** A value whose keys, at every depth, are distinct and already camel-cased. */
  predicate Camelized(j: Json)
    decreases j
  {
    match j
    case JArr(es) => forall i :: 0 <= i < |es| ==> Camelized(es[i])
    case JObj(ms) =>
      DistinctKeys(ms) && forall i :: 0 <= i < |ms| ==> NoPair(ms[i].key) && Camelized(ms[i].value)
    case _ => true
  }

  /** The conversion always produces a camelized value. */
  lemma {:induction false} KeysToCamelIsCamelized(j: Json)
    ensures Camelized(KeysToCamel(j))
    decreases j
  {
    match j
    case JArr(es) =>
      forall i | 0 <= i < |es| ensures Camelized(KeysToCamel(es[i])) {
        KeysToCamelIsCamelized(es[i]);
      }
    case JObj(ms) =>
      var renamed := Renamed(ms);
      forall i | 0 <= i < |ms| ensures NoPair(renamed[i].key) && Camelized(renamed[i].value) {
        CamelHasNoPair(ms[i].key);
        KeysToCamelIsCamelized(ms[i].value);
      }
      var p := (m: Member) => NoPair(m.key) && Camelized(m.value);
      CollectedKeeps([], renamed, p);
    case _ =>
  }

  /** A camelized value is its own conversion. */
  lemma {:induction false} CamelizedUnchanged(j: Json)
    requires Camelized(j)
    ensures KeysToCamel(j) == j
    decreases j
  {
    match j
    case JArr(es) =>
      forall i | 0 <= i < |es| ensures KeysToCamel(es[i]) == es[i] {
        CamelizedUnchanged(es[i]);
      }
      assert KeysToCamel(j).elems == es;
    case JObj(ms) =>
      var renamed := Renamed(ms);
      forall i | 0 <= i < |ms| ensures renamed[i] == ms[i] {
        CamelNoPairUnchanged(ms[i].key);
        CamelizedUnchanged(ms[i].value);
      }
      assert renamed == ms;
      assert [] + ms == ms;
      CollectedDistinctIsAppend([], ms);
    case _ =>
  }

  /** Converting twice is converting once. */
  lemma KeysToCamelIdempotent(j: Json)
    ensures KeysToCamel(KeysToCamel(j)) == KeysToCamel(j)
  {
    KeysToCamelIsCamelized(j);
    CamelizedUnchanged(KeysToCamel(j));
  }

  /** Two keys that camel-case alike merge: the later value wins, at the earlier position. */
  lemma CollidingKeysMerge()
    ensures KeysToCamel(JObj([Member("a_b", JNum(1.0)), Member("aB", JNum(2.0))]))
      == JObj([Member("aB", JNum(2.0))])
  {
    assert "a_b"[1..] == "_b";
    assert "_b"[2..] == "";
    assert Camel("a_b") == "aB";
    assert "aB"[1..] == "B";
    assert Camel("aB") == "aB";
  }
}
