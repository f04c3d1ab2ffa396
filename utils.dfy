/** Helpers of utils/utils.go: the webhook signature check of the gateway's
    `x-signature` header, and date parsing over an ordered list of layouts.
    HMAC-SHA256 with hex encoding and Go's time.Parse are not modelled; each is
    passed in as a function. */
module Utils {

  import opened Types

  // ---- strings.Split with a one-character separator ----

  /** The pieces of `s` between occurrences of `sep` (Go's strings.Split; "" gives [""]). */
  function Split(s: string, sep: char): (parts: seq<string>)
    ensures |parts| >= 1
    ensures forall i :: 0 <= i < |parts| ==> sep !in parts[i]
    decreases |s|
  {
    if s == [] then [""]
    else
      var rest := Split(s[1..], sep);
      if s[0] == sep then [""] + rest
      else [[s[0]] + rest[0]] + rest[1..]
  }

  /** Gluing pieces back together with `sep` between them (strings.Join). */
  function Join(parts: seq<string>, sep: char): string
    requires |parts| >= 1
    decreases |parts|
  {
    if |parts| == 1 then parts[0] else parts[0] + [sep] + Join(parts[1..], sep)
  }

  /** Split loses nothing: joining its pieces gives the input back. */
  lemma {:induction false} JoinSplit(s: string, sep: char)
    ensures Join(Split(s, sep), sep) == s
    decreases |s|
  {
    if s != [] {
      var rest := Split(s[1..], sep);
      JoinSplit(s[1..], sep);
      if s[0] == sep {
        assert Split(s, sep) == [""] + rest;
        assert ([""] + rest)[1..] == rest;
      } else {
        var parts := Split(s, sep);
        assert parts == [[s[0]] + rest[0]] + rest[1..];
        if |rest| > 1 {
          assert parts[1..] == rest[1..];
          assert Join(parts, sep) == [s[0]] + rest[0] + [sep] + Join(rest[1..], sep);
        }
      }
    }
  }

  /** A separator-free head is split off as the first piece. */
  lemma {:induction false} SplitAfterHead(a: string, b: string, sep: char)
    requires sep !in a
    ensures Split(a + [sep] + b, sep) == [a] + Split(b, sep)
    decreases |a|
  {
    if a == [] {
      assert a + [sep] + b == [sep] + b;
      assert ([sep] + b)[1..] == b;
    } else {
      SplitAfterHead(a[1..], b, sep);
      assert (a + [sep] + b)[1..] == a[1..] + [sep] + b;
      assert [a[0]] + a[1..] == a;
    }
  }

  /** A string without the separator is a single piece. */
  lemma {:induction false} SplitWithoutSeparator(s: string, sep: char)
    requires sep !in s
    ensures Split(s, sep) == [s]
    decreases |s|
  {
    if s != [] {
      SplitWithoutSeparator(s[1..], sep);
      assert [s[0]] + s[1..] == s;
    }
  }

  // ---- strings.SplitN(s, sep, 2) ----

  function IndexOf(s: string, c: char): (i: nat)
    requires c in s
    ensures i < |s| && s[i] == c && c !in s[..i]
    decreases |s|
  {
    if s[0] == c then 0 else 1 + IndexOf(s[1..], c)
  }

  /** Split at the first `sep` only: one piece when there is none, otherwise the
      part before it (which has no `sep`) and all the rest (which may). */
  function SplitOnce(s: string, sep: char): (kv: seq<string>)
    ensures |kv| == 1 <==> sep !in s
    ensures |kv| == 1 || |kv| == 2
    ensures |kv| == 1 ==> kv[0] == s
    ensures |kv| == 2 ==> kv[0] + [sep] + kv[1] == s && sep !in kv[0]
  {
    if sep in s then
      var i := IndexOf(s, sep);
      assert s[..i] + [sep] + s[i + 1..] == s;
      [s[..i], s[i + 1..]]
    else [s]
  }

  /** "key=value" splits into exactly key and value when key has no separator,
      whatever separators the value holds. */
  lemma {:induction false} SplitOnceAtFirst(k: string, v: string, sep: char)
    requires sep !in k
    ensures SplitOnce(k + [sep] + v, sep) == [k, v]
  {
    var s := k + [sep] + v;
    assert s[|k|] == sep;
    var kv := SplitOnce(s, sep);
    assert kv[0] == s[..|k|] == k;
    assert kv[1] == s[|k| + 1..] == v;
  }

  // ---- strings.TrimSpace ----

  /** unicode.IsSpace: ASCII white space, U+0085, U+00A0 and the Unicode White_Space characters above Latin-1. */
  predicate IsSpace(c: char)
  {
    || c == '\t' || c == '\n' || c == '\U{000B}' || c == '\U{000C}' || c == '\r' || c == ' '
    || c == '\U{0085}' || c == '\U{00A0}' || c == '\U{1680}'
    || ('\U{2000}' <= c <= '\U{200A}')
    || c == '\U{2028}' || c == '\U{2029}' || c == '\U{202F}' || c == '\U{205F}' || c == '\U{3000}'
  }

  predicate AllSpace(s: string) { forall i :: 0 <= i < |s| ==> IsSpace(s[i]) }

  /** No white space at either end. */
  predicate Trimmed(s: string) { s == [] || (!IsSpace(s[0]) && !IsSpace(s[|s| - 1])) }

  function TrimLeft(s: string): (r: string)
    ensures |r| <= |s|
    ensures r == [] || !IsSpace(r[0])
    decreases |s|
  {
    if s != [] && IsSpace(s[0]) then TrimLeft(s[1..]) else s
  }

  function TrimRight(s: string): (r: string)
    ensures |r| <= |s|
    ensures r != [] ==> r[0] == s[0]
    ensures r == [] || !IsSpace(r[|r| - 1])
    decreases |s|
  {
    if s != [] && IsSpace(s[|s| - 1]) then TrimRight(s[..|s| - 1]) else s
  }

  /** strings.TrimSpace: the input with white space removed from both ends. */
  function TrimSpace(s: string): (r: string)
    ensures Trimmed(r)
    ensures |r| <= |s|
  {
    TrimRight(TrimLeft(s))
  }

  /** TrimLeft removes a prefix made of white space only. */
  lemma {:induction false} TrimLeftDropsSpace(s: string)
    ensures var r := TrimLeft(s); r == s[|s| - |r|..] && AllSpace(s[..|s| - |r|])
    decreases |s|
  {
    if s != [] && IsSpace(s[0]) {
      TrimLeftDropsSpace(s[1..]);
      var r := TrimLeft(s);
      assert s[..|s| - |r|] == [s[0]] + s[1..][..|s| - 1 - |r|];
    }
  }

  /** TrimRight removes a suffix made of white space only. */
  lemma {:induction false} TrimRightDropsSpace(s: string)
    ensures var r := TrimRight(s); r == s[..|r|] && AllSpace(s[|r|..])
    decreases |s|
  {
    if s != [] && IsSpace(s[|s| - 1]) {
      TrimRightDropsSpace(s[..|s| - 1]);
      var r := TrimRight(s);
      assert s[|r|..] == s[..|s| - 1][|r|..] + [s[|s| - 1]];
    }
  }

  /** What TrimSpace keeps is a slice of its input, and everything it removes
      from either end is white space. */
  lemma {:induction false} TrimSpaceDropsSpace(s: string)
    ensures var i := |s| - |TrimLeft(s)|; var r := TrimSpace(s);
            && i + |r| <= |s| && s[i..i + |r|] == r
            && AllSpace(s[..i]) && AllSpace(s[i + |r|..])
  {
    var left := TrimLeft(s);
    var i := |s| - |left|;
    TrimLeftDropsSpace(s);
    TrimRightDropsSpace(left);
    var r := TrimRight(left);
    assert s[i..i + |r|] == left[..|r|];
    assert s[i + |r|..] == left[|r|..];
  }

  lemma {:induction false} TrimLeftPadded(p: string, s: string)
    requires AllSpace(p) && (s == [] || !IsSpace(s[0]))
    ensures TrimLeft(p + s) == s
    decreases |p|
  {
    if p != [] {
      assert (p + s)[1..] == p[1..] + s;
      TrimLeftPadded(p[1..], s);
    }
  }

  lemma {:induction false} TrimRightPadded(s: string, q: string)
    requires AllSpace(q) && (s == [] || !IsSpace(s[|s| - 1]))
    ensures TrimRight(s + q) == s
    decreases |q|
  {
    if q != [] {
      assert (s + q)[..|s + q| - 1] == s + q[..|q| - 1];
      TrimRightPadded(s, q[..|q| - 1]);
    }
  }

  /** White space around a trimmed string is exactly what TrimSpace removes. */
  lemma {:induction false} TrimSpacePadded(p: string, s: string, q: string)
    requires AllSpace(p) && AllSpace(q) && Trimmed(s)
    ensures TrimSpace(p + s + q) == s
  {
    assert p + s + q == p + (s + q);
    if s == [] {
      assert AllSpace(p + q) by {
        forall i | 0 <= i < |p + q| ensures IsSpace((p + q)[i]) {
          if i < |p| { assert (p + q)[i] == p[i]; } else { assert (p + q)[i] == q[i - |p|]; }
        }
      }
      assert p + s + q == p + q + [];
      TrimLeftPadded(p + q, []);
    } else {
      TrimLeftPadded(p, s + q);
    }
    TrimRightPadded(s, q);
  }

  lemma {:induction false} TrimSpaceOfTrimmed(s: string)
    requires Trimmed(s)
    ensures TrimSpace(s) == s
  {
    TrimSpacePadded([], s, []);
    assert [] + s + [] == s;
  }

  // ---- WebhookHeaderValidator ----

  /** The value recorded for `key` after reading one part of the header, given the
      value `prev` recorded before it: a part "k=v" whose trimmed key is `key`
      records its trimmed value; any other part, and a part without '=', keeps `prev`. */
  function Record(part: string, key: string, prev: string): string
  {
    var kv := SplitOnce(part, '=');
    if |kv| == 2 && TrimSpace(kv[0]) == key then TrimSpace(kv[1]) else prev
  }

  /** The value recorded for `key` after reading `parts` in order, starting from "". */
  function FieldValue(parts: seq<string>, key: string): string
    decreases |parts|
  {
    if parts == [] then "" else Record(parts[|parts| - 1], key, FieldValue(parts[..|parts| - 1], key))
  }

  /** The manifest string signed by the gateway (utils/utils.go:133). */
  function Manifest(dataId: string, requestId: string, ts: string): string
  {
    "id:" + dataId + ";request-id:" + requestId + ";ts:" + ts + ";"
  }

  /** WebhookHeaderValidator (utils/utils.go:96-143).  `xSignature` and `xRequestId`
      are the header values ("" when absent), `dataId` the `data.id` query value,
      and `hmacHex(key, message)` the hex HMAC-SHA256 of `message` under `key`. */
  method WebhookHeaderValidator(xSignature: string, xRequestId: string, dataId: string, secret: string,
                                hmacHex: (string, string) -> string)
    returns (ok: bool)
    ensures ok <==>
              && xSignature != "" && xRequestId != ""
              && hmacHex(secret, Manifest(dataId, xRequestId, FieldValue(Split(xSignature, ','), "ts")))
                 == FieldValue(Split(xSignature, ','), "v1")
  {
    if xSignature == "" || xRequestId == "" {
      return false;
    }
    var parts := Split(xSignature, ',');
    var ts, hash := "", "";
    for i := 0 to |parts|
      invariant ts == FieldValue(parts[..i], "ts")
      invariant hash == FieldValue(parts[..i], "v1")
    {
      assert parts[..i + 1][..i] == parts[..i];
      var keyValue := SplitOnce(parts[i], '=');
      if |keyValue| == 2 {
        var key := TrimSpace(keyValue[0]);
        var value := TrimSpace(keyValue[1]);
        if key == "ts" {
          ts := value;
        } else if key == "v1" {
          hash := value;
        }
      }
    }
    assert parts[..|parts|] == parts;
    var manifest := Manifest(dataId, xRequestId, ts);
    var sha := hmacHex(secret, manifest);
    ok := sha == hash;
  }

  /** Reading one more part applies Record to the value recorded so far. */
  lemma {:induction false} FieldValueAppend(parts: seq<string>, p: string, key: string)
    ensures FieldValue(parts + [p], key) == Record(p, key, FieldValue(parts, key))
  {
    var all := parts + [p];
    assert all[|all| - 1] == p && all[..|all| - 1] == parts;
  }

  /** A part "k=v" whose key trims to `key` overrides every earlier one. */
  lemma {:induction false} LaterFieldWins(parts: seq<string>, k: string, v: string, key: string)
    requires '=' !in k && TrimSpace(k) == key
    ensures FieldValue(parts + [k + "=" + v], key) == TrimSpace(v)
  {
    assert k + "=" + v == k + ['='] + v;
    SplitOnceAtFirst(k, v, '=');
    FieldValueAppend(parts, k + "=" + v, key);
  }

  /** A part without '=' records nothing. */
  lemma {:induction false} PartWithoutEqualsIgnored(parts: seq<string>, p: string, key: string)
    requires '=' !in p
    ensures FieldValue(parts + [p], key) == FieldValue(parts, key)
  {
    FieldValueAppend(parts, p, key);
  }

  /** A key no part names keeps its initial value, the empty string. */
  lemma {:induction false} AbsentFieldIsEmpty(parts: seq<string>, key: string)
    requires forall i :: 0 <= i < |parts| ==> |SplitOnce(parts[i], '=')| != 2 || TrimSpace(SplitOnce(parts[i], '=')[0]) != key
    ensures FieldValue(parts, key) == ""
    decreases |parts|
  {
    if parts != [] {
      var init := parts[..|parts| - 1];
      assert forall i :: 0 <= i < |init| ==> init[i] == parts[i];
      AbsentFieldIsEmpty(init, key);
    }
  }

  /** A part "k=v" whose key does not trim to `key` records nothing for it. */
  lemma {:induction false} OtherFieldSkipped(parts: seq<string>, k: string, v: string, key: string)
    requires '=' !in k && TrimSpace(k) != key
    ensures FieldValue(parts + [k + "=" + v], key) == FieldValue(parts, key)
  {
    assert k + "=" + v == k + ['='] + v;
    SplitOnceAtFirst(k, v, '=');
    FieldValueAppend(parts, k + "=" + v, key);
  }

  /** Two separator-free pieces joined by the separator split back into those two. */
  lemma {:induction false} SplitTwo(first: string, second: string, sep: char)
    requires sep !in first && sep !in second
    ensures Split(first + [sep] + second, sep) == [first, second]
  {
    SplitAfterHead(first, second, sep);
    SplitWithoutSeparator(second, sep);
  }

  /** Of two parts, a second "k=v" decides the value of k. */
  lemma {:induction false} SecondFieldWins(parts: seq<string>, k: string, v: string)
    requires |parts| == 2 && parts[1] == k + "=" + v
    requires '=' !in k && TrimSpace(k) == k && TrimSpace(v) == v
    ensures FieldValue(parts, k) == v
  {
    LaterFieldWins(parts[..1], k, v, k);
    assert parts[..1] + [parts[1]] == parts;
  }

  /** Of two parts "k1=v1" and "k2=v2" with distinct keys, the first decides the value of k1. */
  lemma {:induction false} FirstFieldKept(parts: seq<string>, k1: string, v1: string, k2: string, v2: string)
    requires |parts| == 2 && parts[0] == k1 + "=" + v1 && parts[1] == k2 + "=" + v2
    requires '=' !in k1 && '=' !in k2
    requires TrimSpace(k1) == k1 && TrimSpace(v1) == v1 && TrimSpace(k2) == k2 && k1 != k2
    ensures FieldValue(parts, k1) == v1
  {
    var first := [k1 + "=" + v1];
    assert FieldValue(first, k1) == v1 by {
      assert [] + [k1 + "=" + v1] == first;
      LaterFieldWins([], k1, v1, k1);
    }
    assert FieldValue(parts, k1) == FieldValue(first, k1) by {
      assert first + [k2 + "=" + v2] == parts;
      OtherFieldSkipped(first, k2, v2, k1);
    }
  }

  /** "k1=v1,k2=v2" splits into its two fields. */
  lemma {:induction false} SplitTwoFields(k1: string, v1: string, k2: string, v2: string)
    requires ',' !in k1 + v1 && ',' !in k2 + v2
    ensures Split(k1 + "=" + v1 + "," + k2 + "=" + v2, ',') == [k1 + "=" + v1, k2 + "=" + v2]
  {
    var first, second := k1 + "=" + v1, k2 + "=" + v2;
    assert k1 + "=" + v1 + "," + k2 + "=" + v2 == first + [','] + second;
    assert forall c :: c in first ==> c in k1 + v1 || c == '=';
    assert forall c :: c in second ==> c in k2 + v2 || c == '=';
    SplitTwo(first, second, ',');
  }

  /** Two fields "k1=v1,k2=v2" under distinct keys yield exactly v1 and v2. */
  lemma {:induction false} TwoFields(k1: string, v1: string, k2: string, v2: string)
    requires '=' !in k1 && '=' !in k2 && ',' !in k1 + v1 && ',' !in k2 + v2
    requires Trimmed(k1) && Trimmed(k2) && Trimmed(v1) && Trimmed(v2) && k1 != k2
    ensures FieldValue(Split(k1 + "=" + v1 + "," + k2 + "=" + v2, ','), k1) == v1
    ensures FieldValue(Split(k1 + "=" + v1 + "," + k2 + "=" + v2, ','), k2) == v2
  {
    SplitTwoFields(k1, v1, k2, v2);
    TrimSpaceOfTrimmed(k1);
    TrimSpaceOfTrimmed(k2);
    TrimSpaceOfTrimmed(v1);
    TrimSpaceOfTrimmed(v2);
    var parts := Split(k1 + "=" + v1 + "," + k2 + "=" + v2, ',');
    FirstFieldKept(parts, k1, v1, k2, v2);
    SecondFieldWins(parts, k2, v2);
  }

  /** The gateway's header "ts=<ts>,v1=<hash>" yields exactly <ts> and <hash>
      (which may contain '=' but no ',' and no surrounding white space). */
  lemma {:induction false} CanonicalSignatureFields(ts: string, hash: string)
    requires ',' !in ts && ',' !in hash && Trimmed(ts) && Trimmed(hash)
    ensures FieldValue(Split("ts=" + ts + ",v1=" + hash, ','), "ts") == ts
    ensures FieldValue(Split("ts=" + ts + ",v1=" + hash, ','), "v1") == hash
  {
    assert "ts=" + ts + ",v1=" + hash == "ts" + "=" + ts + "," + "v1" + "=" + hash;
    assert ',' !in "ts" + ts && ',' !in "v1" + hash;
    TwoFields("ts", ts, "v1", hash);
  }

  // ---- ParseDate ----

  /** The layouts ParseDate tries, in this order (utils/utils.go:64-69). */
  const DateLayouts: seq<string> :=
    ["2006-01-02", "2006-01-02T15:04:05Z07:00", "2006-01-02T15:04:05Z", "2006-01-02T15:04:05.999Z"]

  /** The index of the first layout `parse` accepts `date` in, or |layouts| if none does. */
  function FirstAccepting<T>(layouts: seq<string>, date: string, parse: (string, string) -> Option<T>): (i: nat)
    ensures i <= |layouts|
    ensures forall j :: 0 <= j < i ==> parse(layouts[j], date).None?
    ensures i < |layouts| ==> parse(layouts[i], date).Some?
    decreases |layouts|
  {
    if layouts == [] then 0
    else if parse(layouts[0], date).Some? then 0
    else 1 + FirstAccepting(layouts[1..], date, parse)
  }

  /** ParseDate (utils/utils.go:63-84): `parse(layout, value)` stands for time.Parse. */
  method ParseDate<T>(date: string, parse: (string, string) -> Option<T>) returns (r: Result<T>)
    ensures var i := FirstAccepting(DateLayouts, date, parse);
            if i < |DateLayouts| then r == Ok(parse(DateLayouts[i], date).value)
            else r == Err(InvalidDateFormat)
  {
    var t: Option<T> := None;
    var i := 0;
    while i < |DateLayouts|
      invariant 0 <= i <= |DateLayouts|
      invariant t.None?
      invariant forall j :: 0 <= j < i ==> parse(DateLayouts[j], date).None?
    {
      t := parse(DateLayouts[i], date);
      if t.Some? {
        break;
      }
      i := i + 1;
    }
    if t.None? {
      return Err(InvalidDateFormat);
    }
    r := Ok(t.value);
  }
}
