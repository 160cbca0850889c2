/** Message records exchanged through the shared blackboard, and the
    filtering, counting and text helpers that the agents and the metrics
    collector use on them. */
module Messages {

  datatype Option<T> = None | Some(value: T)

  /** The "type" tag of a message. */
  datatype Kind = Proposal | Verification | Synthesis

  datatype Priority = NormalPriority | HighPriority

  /** One message record. Timestamp and confidence are opaque numbers that
      the caller supplies; nothing in the model depends on them. */
  datatype Message = Message(
    id: string,
    agentId: string,
    kind: Kind,
    content: string,
    priority: Priority,
    timestamp: real,
    confidence: real,
    refId: Option<string>)

  /** The messages of kind `k`, in log order: the comprehension
      `[m for m in messages if m["type"] == k]`. */
  function OfKind(log: seq<Message>, k: Kind): (r: seq<Message>)
    ensures |r| <= |log|
    ensures forall i :: 0 <= i < |r| ==> r[i].kind == k && r[i] in log
    ensures forall m :: m in log && m.kind == k ==> m in r
  {
    if log == [] then []
    else (if log[0].kind == k then [log[0]] else []) + OfKind(log[1..], k)
  }

  /** The number of messages of kind `k` in the log. */
  function Count(log: seq<Message>, k: Kind): (n: nat)
    ensures n <= |log|
    ensures n == 0 <==> forall m :: m in log ==> m.kind != k
  {
    var r := OfKind(log, k);
    assert |r| > 0 ==> r[0] in log && r[0].kind == k;
    |r|
  }

  lemma {:induction false} OfKindAppend(a: seq<Message>, b: seq<Message>, k: Kind)
    ensures OfKind(a + b, k) == OfKind(a, k) + OfKind(b, k)
  {
    if a == [] {
      assert a + b == b;
    } else {
      assert (a + b)[0] == a[0];
      assert (a + b)[1..] == a[1..] + b;
      OfKindAppend(a[1..], b, k);
    }
  }

  /** Counting distributes over concatenation of logs. */
  lemma CountAppend(a: seq<Message>, b: seq<Message>, k: Kind)
    ensures Count(a + b, k) == Count(a, k) + Count(b, k)
  {
    OfKindAppend(a, b, k);
  }

  /** A log that only grows by appending never has fewer messages of a kind. */
  lemma CountMonotone(a: seq<Message>, b: seq<Message>, k: Kind)
    requires a <= b
    ensures Count(a, k) <= Count(b, k)
  {
    assert b == a + b[|a|..];
    CountAppend(a, b[|a|..], k);
  }

  /** The three type tags are disjoint and cover every message, so the three
      counts add up to the length of the log. */
  lemma {:induction false} CountPartition(log: seq<Message>)
    ensures Count(log, Proposal) + Count(log, Verification) + Count(log, Synthesis) == |log|
  {
    if log != [] {
      CountPartition(log[1..]);
    }
  }

  /** Python's substring test `sub in s`. */
  function Contains(s: string, sub: string): (r: bool)
    ensures sub <= s ==> r
    ensures r ==> |sub| <= |s|
  {
    sub <= s || (s != [] && Contains(s[1..], sub))
  }

  /** `sub` occurs in `s` starting at position `i`. */
  predicate OccursAt(s: string, sub: string, i: int)
  {
    0 <= i <= |s| - |sub| && s[i..i + |sub|] == sub
  }

  /** The substring test finds `sub` exactly when it occurs at some
      position of `s`. */
  lemma ContainsAt(s: string, sub: string)
    ensures Contains(s, sub) <==> exists i :: OccursAt(s, sub, i)
  {
    if Contains(s, sub) {
      ContainsFindsOccurrence(s, sub);
    }
    if exists i :: OccursAt(s, sub, i) {
      var i :| OccursAt(s, sub, i);
      OccurrenceIsContained(s, sub, i);
    }
  }

  lemma {:induction false} ContainsFindsOccurrence(s: string, sub: string)
    requires Contains(s, sub)
    ensures exists i :: OccursAt(s, sub, i)
  {
    if sub <= s {
      assert OccursAt(s, sub, 0);
    } else {
      ContainsFindsOccurrence(s[1..], sub);
      var i :| OccursAt(s[1..], sub, i);
      assert s[1..][i..i + |sub|] == s[i + 1..i + 1 + |sub|];
      assert OccursAt(s, sub, i + 1);
    }
  }

  lemma {:induction false} OccurrenceIsContained(s: string, sub: string, i: int)
    requires OccursAt(s, sub, i)
    ensures Contains(s, sub)
    decreases i
  {
    if i > 0 {
      assert s[1..][i - 1..i - 1 + |sub|] == s[i..i + |sub|];
      OccurrenceIsContained(s[1..], sub, i - 1);
    } else {
      assert s[..|sub|] == sub;
    }
  }

  /** A non-empty string only occurs in a string holding its first character. */
  lemma {:induction false} ContainsFirstChar(s: string, sub: string)
    requires sub != []
    requires Contains(s, sub)
    ensures sub[0] in s
  {
    if sub <= s {
      assert s[0] == sub[0];
    } else {
      ContainsFirstChar(s[1..], sub);
      assert s == [s[0]] + s[1..];
    }
  }

  /** A string occurs in any string that has it as an infix. */
  lemma {:induction false} ContainsInfix(x: string, sub: string, y: string)
    ensures Contains(x + sub + y, sub)
  {
    if x == [] {
      assert x + sub + y == sub + y;
    } else {
      assert (x + sub + y)[1..] == x[1..] + sub + y;
      ContainsInfix(x[1..], sub, y);
    }
  }

  /** The decimal rendering of a natural number, as Python's `str(n)`. */
  function Digits(n: nat): (r: string)
    ensures r != []
    ensures forall i :: 0 <= i < |r| ==> '0' <= r[i] <= '9'
  {
    if n < 10 then [DigitChar(n)] else Digits(n / 10) + [DigitChar(n % 10)]
  }

  function DigitChar(d: nat): (c: char)
    requires d < 10
    ensures '0' <= c <= '9'
  {
    ('0' as int + d) as char
  }
}
