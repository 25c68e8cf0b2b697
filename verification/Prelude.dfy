/** Small shared vocabulary: optional values and splitting text at colons. */
module Prelude {

  datatype Option<+T> = None | Some(value: T)

  /** How a database call went: in order, done but reported as failed, or not done. */
  datatype DbCall = Done | AnswerLost | NotDone

  /** Index of the first colon of `s`, or the length of `s` when it has none. */
  function FirstColon(s: string): (i: nat)
    ensures i <= |s|
  {
    if s == "" || s[0] == ':' then 0 else 1 + FirstColon(s[1..])
  }

  /** Index of the last colon of `s`, or the length of `s` when it has none. */
  function LastColon(s: string): (i: nat)
    ensures i <= |s|
  {
    if s == "" then 0
    else if s[|s| - 1] == ':' then |s| - 1
    else
      var i := LastColon(s[..|s| - 1]);
      if i == |s| - 1 then |s| else i
  }

  /** `s` split around its first colon. */
  function CutFirst(s: string): Option<(string, string)>
  {
    var i := FirstColon(s);
    if i == |s| then None else Some((s[..i], s[i + 1..]))
  }

  /** `s` split around its last colon. */
  function CutLast(s: string): Option<(string, string)>
  {
    var i := LastColon(s);
    if i == |s| then None else Some((s[..i], s[i + 1..]))
  }

  lemma {:induction false} FirstColonAt(a: string, b: string)
    requires ':' !in a
    ensures FirstColon(a + ":" + b) == |a|
  {
    var s := a + ":" + b;
    if a != "" {
      assert s[1..] == a[1..] + ":" + b;
      FirstColonAt(a[1..], b);
    }
  }

  lemma {:induction false} LastColonAt(a: string, b: string)
    requires ':' !in b
    ensures LastColon(a + ":" + b) == |a|
    decreases |b|
  {
    var s := a + ":" + b;
    if b != "" {
      assert b[|b| - 1] in b;
      assert s[..|s| - 1] == a + ":" + b[..|b| - 1];
      LastColonAt(a, b[..|b| - 1]);
    }
  }

  lemma CutFirstJoined(a: string, b: string)
    requires ':' !in a
    ensures CutFirst(a + ":" + b) == Some((a, b))
  {
    FirstColonAt(a, b);
    var s := a + ":" + b;
    assert s[..|a|] == a && s[|a| + 1..] == b;
  }

  lemma CutLastJoined(a: string, b: string)
    requires ':' !in b
    ensures CutLast(a + ":" + b) == Some((a, b))
  {
    LastColonAt(a, b);
    var s := a + ":" + b;
    assert s[..|a|] == a && s[|a| + 1..] == b;
  }
}
