/**
 * The two field builders of entry.go: `callerFields` and `statusFields`,
 * with the decimal rendering (`strconv.Itoa`) that names the "msg(<n>)" keys.
 */
module FieldBuilders {
  import opened Logrus

  const CallerKey := "caller"
  const CallerLineKey := "callerLine"
  const StatusCodeKey := "statusCode"
  const StatusKey := "status"
  const ErrorKey := "error"

  /* ---------- strconv.Itoa on the positive indices it is given ---------- */

  function DigitChar(d: nat): (c: char)
    requires d < 10
    ensures '0' <= c <= '9'
  {
    "0123456789"[d]
  }

  function DigitValue(c: char): nat
  {
    if '0' <= c <= '9' then (c as int - '0' as int) else 0
  }

  /** Decimal rendering of `n`, most significant digit first, without leading zeros. */
  function DecimalString(n: nat): (s: string)
    ensures |s| >= 1
    ensures forall i :: 0 <= i < |s| ==> '0' <= s[i] <= '9'
    ensures s[0] == '0' <==> n == 0
    decreases n
  {
    if n < 10 then [DigitChar(n)] else DecimalString(n / 10) + [DigitChar(n % 10)]
  }

  /** Reads a string of decimal digits back as a number. */
  function ParseDecimal(s: string): nat
    decreases |s|
  {
    if s == [] then 0 else 10 * ParseDecimal(s[..|s| - 1]) + DigitValue(s[|s| - 1])
  }

  lemma {:induction false} ParseDecimalString(n: nat)
    ensures ParseDecimal(DecimalString(n)) == n
    decreases n
  {
    var s := DecimalString(n);
    if n < 10 {
      assert s[..|s| - 1] == [];
    } else {
      ParseDecimalString(n / 10);
      assert s[..|s| - 1] == DecimalString(n / 10);
      assert s[|s| - 1] == DigitChar(n % 10);
    }
  }

  lemma DecimalStringInjective(a: nat, b: nat)
    ensures DecimalString(a) == DecimalString(b) ==> a == b
  {
    ParseDecimalString(a);
    ParseDecimalString(b);
  }

  /* ---------- the "msg(<n>)" keys ---------- */

  /** The key of the n-th extra message, counting from 1. */
  function MsgKey(n: nat): (k: string)
    ensures |k| >= 6 && k[..4] == "msg(" && k[|k| - 1] == ')'
    ensures forall j :: 4 <= j < |k| - 1 ==> '0' <= k[j] <= '9'
  {
    "msg(" + DecimalString(n) + ")"
  }

  lemma MsgKeyInjective(a: nat, b: nat)
    ensures MsgKey(a) == MsgKey(b) <==> a == b
  {
    if MsgKey(a) == MsgKey(b) {
      var ka, kb := MsgKey(a), MsgKey(b);
      assert ka[4..|ka| - 1] == DecimalString(a);
      assert kb[4..|kb| - 1] == DecimalString(b);
      DecimalStringInjective(a, b);
    }
  }

  /** No message key coincides with one of the fixed keys of statusFields. */
  lemma MsgKeyNotFixed(n: nat)
    ensures MsgKey(n) != StatusCodeKey && MsgKey(n) != StatusKey && MsgKey(n) != ErrorKey
  {
  }

  /* ---------- callerFields ---------- */

  function CallerFields(file: string, line: int): (f: Fields)
    ensures f.Keys == {CallerKey, CallerLineKey}
    ensures f[CallerKey] == StrV(file) && f[CallerLineKey] == IntV(line)
  {
    map[CallerKey := StrV(file), CallerLineKey := IntV(line)]
  }

  /* ---------- statusFields ---------- */

  /** The fields that the loop of statusFields inserts for `msgs`, in input order. */
  function MsgFields(msgs: seq<string>): Fields
    decreases |msgs|
  {
    if msgs == [] then map[]
    else MsgFields(msgs[..|msgs| - 1])[MsgKey(|msgs|) := StrV(msgs[|msgs| - 1])]
  }

  /** "msg(i)" holds the i-th message. */
  lemma {:induction false} MsgFieldsLookup(msgs: seq<string>, i: nat)
    requires 1 <= i <= |msgs|
    ensures MsgKey(i) in MsgFields(msgs) && MsgFields(msgs)[MsgKey(i)] == StrV(msgs[i - 1])
    decreases |msgs|
  {
    var n := |msgs|;
    if i < n {
      var init := msgs[..n - 1];
      MsgFieldsLookup(init, i);
      assert init[i - 1] == msgs[i - 1];
      MsgKeyInjective(i, n);
    }
  }

  /** Every key of MsgFields(msgs) is "msg(i)" for some position i of msgs. */
  lemma {:induction false} MsgFieldsKey(msgs: seq<string>, k: string) returns (i: nat)
    requires k in MsgFields(msgs)
    ensures 1 <= i <= |msgs| && k == MsgKey(i)
    decreases |msgs|
  {
    var n := |msgs|;
    if k == MsgKey(n) {
      i := n;
    } else {
      i := MsgFieldsKey(msgs[..n - 1], k);
    }
  }

  /** One key per message: the loop never overwrites a key it inserted before. */
  lemma {:induction false} MsgFieldsSize(msgs: seq<string>)
    ensures |MsgFields(msgs)| == |msgs|
    decreases |msgs|
  {
    if msgs != [] {
      var n := |msgs|;
      var init := msgs[..n - 1];
      MsgFieldsSize(init);
      if MsgKey(n) in MsgFields(init) {
        var i := MsgFieldsKey(init, MsgKey(n));
        MsgKeyInjective(i, n);
        assert false;
      }
    }
  }

  /** "msg(i)" holds the i-th message, and these are the only keys. */
  lemma MsgFieldsContents(msgs: seq<string>)
    ensures forall i :: 1 <= i <= |msgs| ==> MsgKey(i) in MsgFields(msgs) && MsgFields(msgs)[MsgKey(i)] == StrV(msgs[i - 1])
    ensures forall k :: k in MsgFields(msgs) ==> exists i :: 1 <= i <= |msgs| && k == MsgKey(i)
    ensures |MsgFields(msgs)| == |msgs|
  {
    forall i | 1 <= i <= |msgs|
      ensures MsgKey(i) in MsgFields(msgs) && MsgFields(msgs)[MsgKey(i)] == StrV(msgs[i - 1])
    {
      MsgFieldsLookup(msgs, i);
    }
    forall k | k in MsgFields(msgs)
      ensures exists i :: 1 <= i <= |msgs| && k == MsgKey(i)
    {
      var i := MsgFieldsKey(msgs, k);
    }
    MsgFieldsSize(msgs);
  }

  function StatusBase(statusCode: int, status: string): Fields
  {
    map[StatusCodeKey := IntV(statusCode), StatusKey := StrV(status)]
  }

  /**
   * statusFields: the status code and text, and then either the single message
   * under "error" (stored as the one-element list itself) or every message
   * under "msg(1)", "msg(2)", ... .
   */
  function StatusFields(statusCode: int, status: string, msgs: seq<string>): Fields
  {
    var base := StatusBase(statusCode, status);
    if |msgs| == 1 then base[ErrorKey := StrListV(msgs)]
    else if |msgs| > 0 then base + MsgFields(msgs)
    else base
  }

  /** The loop of statusFields, inserting one "msg(<i+1>)" key per message into the map it builds. */
  method BuildStatusFields(statusCode: int, status: string, msgs: seq<string>) returns (f: Fields)
    ensures f == StatusFields(statusCode, status, msgs)
  {
    f := map[StatusCodeKey := IntV(statusCode), StatusKey := StrV(status)];
    if |msgs| == 1 {
      f := f[ErrorKey := StrListV(msgs)];
    } else if |msgs| > 0 {
      for i := 0 to |msgs|
        invariant f == StatusBase(statusCode, status) + MsgFields(msgs[..i])
      {
        assert msgs[..i + 1][..i] == msgs[..i];
        f := f[MsgKey(i + 1) := StrV(msgs[i])];
      }
      assert msgs[..|msgs|] == msgs;
    }
  }

  /** The status code and text are always there, under their own keys. */
  lemma StatusFieldsBase(statusCode: int, status: string, msgs: seq<string>)
    ensures StatusCodeKey in StatusFields(statusCode, status, msgs)
    ensures StatusFields(statusCode, status, msgs)[StatusCodeKey] == IntV(statusCode)
    ensures StatusKey in StatusFields(statusCode, status, msgs)
    ensures StatusFields(statusCode, status, msgs)[StatusKey] == StrV(status)
  {
    if |msgs| > 1 {
      if StatusCodeKey in MsgFields(msgs) {
        var i := MsgFieldsKey(msgs, StatusCodeKey);
        MsgKeyNotFixed(i);
        assert false;
      }
      if StatusKey in MsgFields(msgs) {
        var i := MsgFieldsKey(msgs, StatusKey);
        MsgKeyNotFixed(i);
        assert false;
      }
    }
  }

  /** Without extra messages only the two status keys are present. */
  lemma StatusFieldsNoMessage(statusCode: int, status: string)
    ensures StatusFields(statusCode, status, []).Keys == {StatusCodeKey, StatusKey}
  {
  }

  /** One extra message: only "error" is added, holding the one-element list. */
  lemma StatusFieldsOneMessage(statusCode: int, status: string, msg: string)
    ensures StatusFields(statusCode, status, [msg]).Keys == {StatusCodeKey, StatusKey, ErrorKey}
    ensures StatusFields(statusCode, status, [msg])[ErrorKey] == StrListV([msg])
    ensures forall i :: MsgKey(i) !in StatusFields(statusCode, status, [msg])
  {
  }

  /** A map union of maps with disjoint keys has as many keys as both together. */
  lemma DisjointUnionSize(a: Fields, b: Fields)
    requires a.Keys !! b.Keys
    ensures |a + b| == |a| + |b|
  {
  }

  /** Several extra messages: "msg(i)" holds the i-th message, in input order. */
  lemma StatusFieldsManyLookup(statusCode: int, status: string, msgs: seq<string>)
    requires |msgs| > 1
    ensures forall i :: 1 <= i <= |msgs| ==>
      MsgKey(i) in StatusFields(statusCode, status, msgs) && StatusFields(statusCode, status, msgs)[MsgKey(i)] == StrV(msgs[i - 1])
  {
    forall i | 1 <= i <= |msgs|
      ensures MsgKey(i) in StatusFields(statusCode, status, msgs) && StatusFields(statusCode, status, msgs)[MsgKey(i)] == StrV(msgs[i - 1])
    {
      MsgFieldsLookup(msgs, i);
    }
  }

  /** Several extra messages: besides the status keys only "msg(i)" keys, and no "error". */
  lemma StatusFieldsManyKeys(statusCode: int, status: string, msgs: seq<string>)
    requires |msgs| > 1
    ensures forall k :: k in StatusFields(statusCode, status, msgs) ==>
      k == StatusCodeKey || k == StatusKey || exists i :: 1 <= i <= |msgs| && k == MsgKey(i)
    ensures ErrorKey !in StatusFields(statusCode, status, msgs)
  {
    var base := StatusBase(statusCode, status);
    forall k | k in StatusFields(statusCode, status, msgs)
      ensures k == StatusCodeKey || k == StatusKey || exists i :: 1 <= i <= |msgs| && k == MsgKey(i)
    {
      if k !in base {
        var i := MsgFieldsKey(msgs, k);
      }
    }
    if ErrorKey in MsgFields(msgs) {
      var i := MsgFieldsKey(msgs, ErrorKey);
      MsgKeyNotFixed(i);
    }
  }

  /** Several extra messages: n + 2 keys in all, none overwritten. */
  lemma StatusFieldsManySize(statusCode: int, status: string, msgs: seq<string>)
    requires |msgs| > 1
    ensures |StatusFields(statusCode, status, msgs)| == |msgs| + 2
  {
    var base := StatusBase(statusCode, status);
    var mf := MsgFields(msgs);
    forall k | k in mf ensures k !in base {
      var i := MsgFieldsKey(msgs, k);
      MsgKeyNotFixed(i);
    }
    MsgFieldsSize(msgs);
    DisjointUnionSize(base, mf);
  }

  /** The two worked examples of the field-naming policy. */
  lemma StatusFieldsExamples()
    ensures StatusFields(200, "OK", ["a"])
      == map["statusCode" := IntV(200), "status" := StrV("OK"), "error" := StrListV(["a"])]
    ensures StatusFields(200, "OK", ["a", "b"])
      == map["statusCode" := IntV(200), "status" := StrV("OK"), "msg(1)" := StrV("a"), "msg(2)" := StrV("b")]
  {
    assert DecimalString(1) == "1";
    assert DecimalString(2) == "2";
    assert MsgKey(1) == "msg(1)";
    assert MsgKey(2) == "msg(2)";
    assert ["a", "b"][..1] == ["a"];
    assert ["a"][..0] == [];
  }
}
