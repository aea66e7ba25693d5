/** The inbox page: the one-line message preview, and the state behind the
    composer (the active contact and the draft, cleared when sending and
    put back when sending fails). */
module InboxPage {
  import opened Common

  // ---------------------------------------------------------------------
  // Preview
  // ---------------------------------------------------------------------

  /** `replace(/\s+/g, " ")`: every run of whitespace becomes one space. */
  function Collapse(s: string): string
    decreases |s|
  {
    if |s| == 0 then ""
    else if IsWs(s[0]) then
      var rest := TrimStart(s);
      assert rest != s;
      " " + Collapse(rest)
    else [s[0]] + Collapse(s[1..])
  }

  /** Collapsing never lengthens a text, and a non-empty text starts with
      its own first character, or with a space for a whitespace start. */
  lemma {:induction false} CollapseHead(s: string)
    ensures |Collapse(s)| <= |s|
    ensures |s| > 0 ==> |Collapse(s)| > 0 && Collapse(s)[0] == (if IsWs(s[0]) then ' ' else s[0])
    decreases |s|
  {
    if |s| > 0 {
      if IsWs(s[0]) {
        CollapseHead(TrimStart(s));
      } else {
        CollapseHead(s[1..]);
      }
    }
  }

  /** Whitespace only as single spaces. */
  predicate SingleSpaced(s: string) {
    && (forall i :: 0 <= i < |s| && IsWs(s[i]) ==> s[i] == ' ')
    && (forall i :: 1 <= i < |s| && IsWs(s[i]) ==> !IsWs(s[i - 1]))
  }

  lemma {:induction false} CollapseSingleSpaced(s: string)
    ensures SingleSpaced(Collapse(s))
    decreases |s|
  {
    if |s| > 0 {
      if IsWs(s[0]) {
        var rest := TrimStart(s);
        CollapseSingleSpaced(rest);
        CollapseHead(rest);
        var c := Collapse(rest);
        assert Collapse(s) == " " + c;
        assert |c| > 0 ==> !IsWs(c[0]);
        assert forall i :: 1 <= i < |Collapse(s)| ==> Collapse(s)[i] == c[i - 1];
      } else {
        CollapseSingleSpaced(s[1..]);
        var c := Collapse(s[1..]);
        assert Collapse(s) == [s[0]] + c;
        assert forall i :: 1 <= i < |Collapse(s)| ==> Collapse(s)[i] == c[i - 1];
      }
    }
  }

  /** A string that ends in a non-space keeps its last character. */
  lemma {:induction false} CollapseLast(s: string)
    requires |s| > 0 && !IsWs(s[|s| - 1])
    ensures |Collapse(s)| > 0 && Collapse(s)[|Collapse(s)| - 1] == s[|s| - 1]
    decreases |s|
  {
    if IsWs(s[0]) {
      var rest := TrimStart(s);
      assert |rest| > 0;
      assert rest[|rest| - 1] == s[|s| - 1];
      CollapseLast(rest);
      CollapseWsHead(s);
    } else if |s| > 1 {
      assert s[1..][|s| - 2] == s[|s| - 1];
      CollapseLast(s[1..]);
      CollapseCharHead(s);
    } else {
      CollapseCharHead(s);
    }
  }

  /** Text without whitespace is not changed. */
  lemma {:induction false} CollapseNoWs(s: string)
    requires forall i :: 0 <= i < |s| ==> !IsWs(s[i])
    ensures Collapse(s) == s
    decreases |s|
  {
    if |s| > 0 {
      CollapseNoWs(s[1..]);
    }
  }

  /** Leading whitespace ends inside a part that does not end in whitespace. */
  lemma {:induction false} TrimStartConcat(a: string, b: string)
    requires |a| > 0 && !IsWs(a[|a| - 1])
    ensures TrimStart(a + b) == TrimStart(a) + b
    decreases |a|
  {
    if IsWs(a[0]) {
      assert |a| > 1;
      assert (a + b)[1..] == a[1..] + b;
      TrimStartConcat(a[1..], b);
    }
  }

  /** A whitespace run before a non-space start is trimmed away entirely. */
  lemma {:induction false} TrimStartRun(w: string, b: string)
    requires AllWs(w) && (b == [] || !IsWs(b[0]))
    ensures TrimStart(w + b) == b
    decreases |w|
  {
    if |w| == 0 {
      assert w + b == b;
    } else {
      assert (w + b)[1..] == w[1..] + b;
      TrimStartRun(w[1..], b);
    }
  }

  /** Collapse on a string that starts with whitespace. */
  lemma CollapseWsHead(s: string)
    requires |s| > 0 && IsWs(s[0])
    ensures Collapse(s) == " " + Collapse(TrimStart(s))
  {
  }

  /** Collapse on a string that starts with another character. */
  lemma CollapseCharHead(s: string)
    requires |s| > 0 && !IsWs(s[0])
    ensures Collapse(s) == [s[0]] + Collapse(s[1..])
  {
  }

  /** Collapse on a word character put in front of a text. */
  lemma CollapseCharCons(c: char, t: string)
    requires !IsWs(c)
    ensures Collapse([c] + t) == [c] + Collapse(t)
  {
    assert ([c] + t)[1..] == t;
  }

  /** Collapsing works part by part when the first part does not end in
      whitespace: every character other than whitespace is kept, in order. */
  lemma {:induction false} CollapseConcat(a: string, b: string)
    requires a == [] || !IsWs(a[|a| - 1])
    ensures Collapse(a + b) == Collapse(a) + Collapse(b)
    decreases |a|
  {
    if |a| == 0 {
      assert a + b == b;
    } else if IsWs(a[0]) {
      var rest := TrimStart(a);
      assert |rest| > 0 && rest[|rest| - 1] == a[|a| - 1];
      CollapseConcat(rest, b);
      CollapseConcatWsStep(a, b, rest);
    } else {
      var tail := a[1..];
      assert tail == [] || tail[|tail| - 1] == a[|a| - 1];
      CollapseConcat(tail, b);
      CollapseConcatCharStep(a, b, tail);
    }
  }

  /** The step of CollapseConcat for a first part that opens with whitespace. */
  lemma CollapseConcatWsStep(a: string, b: string, rest: string)
    requires |a| > 0 && IsWs(a[0]) && !IsWs(a[|a| - 1]) && rest == TrimStart(a)
    requires Collapse(rest + b) == Collapse(rest) + Collapse(b)
    ensures Collapse(a + b) == Collapse(a) + Collapse(b)
  {
    assert (a + b)[0] == a[0];
    CollapseWsHead(a + b);
    TrimStartConcat(a, b);
    CollapseWsHead(a);
    ConcatAssoc(" ", Collapse(rest), Collapse(b));
  }

  /** The step of CollapseConcat for a first part that opens with a word character. */
  lemma CollapseConcatCharStep(a: string, b: string, tail: string)
    requires |a| > 0 && !IsWs(a[0]) && tail == a[1..]
    requires Collapse(tail + b) == Collapse(tail) + Collapse(b)
    ensures Collapse(a + b) == Collapse(a) + Collapse(b)
  {
    var c := a[0];
    assert a == [c] + tail;
    ConcatAssoc([c], tail, b);
    CollapseCharCons(c, tail + b);
    CollapseCharCons(c, tail);
    ConcatAssoc([c], Collapse(tail), Collapse(b));
  }

  lemma ConcatAssoc(p: string, x: string, y: string)
    ensures p + (x + y) == (p + x) + y
  {
  }

  /** A run of whitespace becomes exactly one space. */
  lemma CollapseRun(w: string, b: string)
    requires |w| > 0 && AllWs(w) && (b == [] || !IsWs(b[0]))
    ensures Collapse(w + b) == " " + Collapse(b)
  {
    assert (w + b)[0] == w[0];
    TrimStartRun(w, b);
    CollapseWsHead(w + b);
  }

  /** Two words with a whitespace run between them read as two words and
      one space. */
  lemma CollapseBetweenWords(x: char, w: string, y: char)
    requires !IsWs(x) && !IsWs(y) && |w| > 0 && AllWs(w)
    ensures Collapse([x] + w + [y]) == [x, ' ', y]
  {
    var tail := w + [y];
    calc {
      Collapse([x] + w + [y]);
      { assert [x] + w + [y] == [x] + tail; }
      Collapse([x] + tail);
      { CollapseCharCons(x, tail); }
      [x] + Collapse(tail);
      { CollapseRun(w, [y]); }
      [x] + (" " + Collapse([y]));
      { CollapseNoWs([y]); }
      [x] + (" " + [y]);
    }
  }



  const PreviewLength: nat := 64
  const Ellipsis: char := '…'

  /** preview(text): "—" for a missing or empty text; otherwise the trimmed
      text with its whitespace runs collapsed, cut to 64 characters plus an
      ellipsis when longer. */
  function Preview(text: Option<string>): (p: string)
    ensures text.None? || text.value == "" ==> p == "—"
    ensures text.Some? && text.value != "" && AllWs(text.value) ==> p == ""
    ensures |p| <= PreviewLength + 1
    ensures text.Some? && text.value != "" ==>
      (|Collapse(Trim(text.value))| <= PreviewLength ==> p == Collapse(Trim(text.value))) &&
      (|Collapse(Trim(text.value))| > PreviewLength ==> p == Collapse(Trim(text.value))[..PreviewLength] + [Ellipsis])
  {
    if text.None? || text.value == "" then "—"
    else
      var t := Collapse(Trim(text.value));
      if |t| > PreviewLength then t[..PreviewLength] + [Ellipsis] else t
  }

  /** A preview that is not cut has no whitespace at either end and no run
      of whitespace inside. */
  lemma PreviewShape(text: string)
    requires text != "" && |Collapse(Trim(text))| <= PreviewLength
    ensures var p := Preview(Some(text));
      SingleSpaced(p) && (p == "" || (!IsWs(p[0]) && !IsWs(p[|p| - 1])))
  {
    var t := Trim(text);
    var p := Preview(Some(text));
    assert p == Collapse(t);
    CollapseSingleSpaced(t);
    CollapseHead(t);
    if t != "" {
      CollapseLast(t);
      assert !IsWs(t[0]) && p[0] == t[0];
    }
  }

  /** A short word is its own preview. */
  lemma ShortWordPreview(w: string)
    requires 0 < |w| <= PreviewLength && forall i :: 0 <= i < |w| ==> !IsWs(w[i])
    ensures Preview(Some(w)) == w
  {
    TrimOfTrimmed(w);
    CollapseNoWs(w);
  }

  // ---------------------------------------------------------------------
  // The composer
  // ---------------------------------------------------------------------

  /** `activeId` is truthy: set and not 0. */
  predicate Active(activeId: Option<int>) {
    activeId.Some? && activeId.value != 0
  }

  /** What onSend sends, if anything: the active contact and the trimmed
      draft, and nothing without a contact or with a blank draft. */
  function SendOf(activeId: Option<int>, draft: string): (s: Option<(int, string)>)
    ensures s.Some? <==> Active(activeId) && !AllWs(draft)
    ensures s.Some? ==> s.value == (activeId.value, Trim(draft)) && s.value.1 != ""
  {
    if !Active(activeId) then None
    else
      var body := Trim(draft);
      if body == "" then None else Some((activeId.value, body))
  }

  /** The key handler sends on Enter without Shift. */
  predicate SendsOnKey(key: string, shift: bool) {
    key == "Enter" && !shift
  }

  lemma ShiftEnterNeverSends(key: string)
    ensures !SendsOnKey(key, true)
    ensures SendsOnKey(key, false) <==> key == "Enter"
  {
  }

  class Composer {
    var activeId: Option<int>
    var draft: string

    constructor ()
      ensures activeId.None? && draft == ""
    {
      activeId := None;
      draft := "";
    }

    method SetDraft(v: string)
      modifies this
      ensures draft == v && activeId == old(activeId)
    {
      draft := v;
    }

    /** The effect that selects the first conversation while none is active. */
    method AutoSelect(conversations: seq<int>)
      modifies this
      ensures !Active(old(activeId)) && |conversations| > 0 ==> activeId == Some(conversations[0])
      ensures Active(old(activeId)) || |conversations| == 0 ==> activeId == old(activeId)
      ensures draft == old(draft)
    {
      if !Active(activeId) && |conversations| > 0 {
        activeId := Some(conversations[0]);
      }
    }

    /** onSend, with the server's answer as `succeeded`: the draft is cleared
        before the request and restored to the sent body if it fails. */
    method OnSend(succeeded: bool) returns (sent: Option<(int, string)>)
      modifies this
      ensures sent == SendOf(old(activeId), old(draft))
      ensures activeId == old(activeId)
      ensures sent.None? ==> draft == old(draft)
      ensures sent.Some? && succeeded ==> draft == ""
      ensures sent.Some? && !succeeded ==> draft == Trim(old(draft))
    {
      if !Active(activeId) {
        return None;
      }
      var body := Trim(draft);
      if body == "" {
        return None;
      }
      draft := "";
      sent := Some((activeId.value, body));
      if !succeeded {
        draft := body;
      }
    }

    /** onKeyDown */
    method OnKeyDown(key: string, shift: bool, succeeded: bool) returns (sent: Option<(int, string)>)
      modifies this
      ensures !SendsOnKey(key, shift) ==> sent.None? && draft == old(draft) && activeId == old(activeId)
      ensures SendsOnKey(key, shift) ==> sent == SendOf(old(activeId), old(draft)) && activeId == old(activeId)
      ensures SendsOnKey(key, shift) && sent.None? ==> draft == old(draft)
      ensures SendsOnKey(key, shift) && sent.Some? && succeeded ==> draft == ""
      ensures SendsOnKey(key, shift) && sent.Some? && !succeeded ==> draft == Trim(old(draft))
    {
      if SendsOnKey(key, shift) {
        sent := OnSend(succeeded);
      } else {
        sent := None;
      }
    }
  }
}
