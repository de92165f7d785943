/**
 The transcript messages and the size of their JSON encoding: the cost that
 every context decision is made with. Only lengths are modelled, not bytes.
 */
module Wire {
  import opened Options

  datatype Call = Call(id: string, name: string, arguments: string)

  /** One transcript message; a missing tool call id is the empty string, as the accessor returns it. */
  datatype Message = Message(role: string, content: Option<string>, calls: seq<Call>, toolCallId: string)

  const TOOL := "tool"
  const USER := "user"
  const SYSTEM := "system"
  const ASSISTANT := "assistant"

  function Text(m: Message): string {
    if m.content.None? then "" else m.content.value
  }

  /** UTF-8 bytes of one character. */
  function Utf8Len(c: char): (n: nat)
    ensures 1 <= n <= 4
  {
    if c < '\U{80}' then 1 else if c < '\U{800}' then 2 else if c < '\U{10000}' then 3 else 4
  }

  function Bytes(s: string): nat {
    if s == [] then 0 else Utf8Len(s[0]) + Bytes(s[1..])
  }

  lemma {:induction false} BytesConcat(a: string, b: string)
    ensures Bytes(a + b) == Bytes(a) + Bytes(b)
  {
    if a == [] {
      assert a + b == b;
    } else {
      assert (a + b)[1..] == a[1..] + b;
      BytesConcat(a[1..], b);
    }
  }

  /** Bytes that encoding/json spends on one character inside a string. */
  function CharLen(c: char): (n: nat)
    ensures 1 <= n <= 6
  {
    if c in {'"', '\\', '\n', '\r', '\t', '\U{08}', '\U{0C}'} then 2
    else if c < ' ' || c in {'<', '>', '&', '\U{2028}', '\U{2029}'} then 6
    else if c < '\U{80}' then 1
    else if c < '\U{800}' then 2
    else if c < '\U{10000}' then 3
    else 4
  }

  function EscapedLen(s: string): nat {
    if s == [] then 0 else CharLen(s[0]) + EscapedLen(s[1..])
  }

  /** The length of a JSON string with its quotes. */
  function StringLen(s: string): nat {
    2 + EscapedLen(s)
  }

  lemma {:induction false} EscapedLenConcat(a: string, b: string)
    ensures EscapedLen(a + b) == EscapedLen(a) + EscapedLen(b)
  {
    if a == [] {
      assert a + b == b;
    } else {
      assert (a + b)[1..] == a[1..] + b;
      EscapedLenConcat(a[1..], b);
    }
  }

  lemma {:induction false} EscapedLenAtLeast(s: string)
    ensures |s| <= EscapedLen(s) <= 6 * |s|
  {
    if s != [] { EscapedLenAtLeast(s[1..]); }
  }

  function Digit(d: nat): char
    requires d < 10
  {
    "0123456789"[d]
  }

  /** A number as encoding/json writes it. */
  function Decimal(n: nat): string {
    if n < 10 then [Digit(n)] else Decimal(n / 10) + [Digit(n % 10)]
  }

  /** A slice cannot be longer than the largest int. */
  const MAX_LENGTH := 0x7FFF_FFFF_FFFF_FFFF

  /** The length of true and false. */
  function BoolLen(b: bool): nat {
    if b then 4 else 5
  }

  /** A larger number is never written shorter. */
  lemma {:induction false} DecimalWidth(m: nat, n: nat)
    requires m <= n
    ensures 1 <= |Decimal(m)| <= |Decimal(n)|
  {
    if m >= 10 {
      DecimalWidth(m / 10, n / 10);
    }
  }

  /** Digits need no escaping. */
  lemma {:induction false} DecimalEscapes(n: nat)
    ensures EscapedLen(Decimal(n)) == |Decimal(n)|
  {
    if n >= 10 {
      DecimalEscapes(n / 10);
      EscapedLenConcat(Decimal(n / 10), [Digit(n % 10)]);
    }
    assert EscapedLen([Digit(n % 10)][1..]) == 0;
  }

  function Sum(lens: seq<nat>): nat {
    if lens == [] then 0 else lens[0] + Sum(lens[1..])
  }

  /** RFC 8259, section 5: brackets, the elements, and a comma between any two of them. */
  function ArrayLen(lens: seq<nat>): nat {
    2 + Sum(lens) + if lens == [] then 0 else |lens| - 1
  }

  lemma {:induction false} SumConcat(a: seq<nat>, b: seq<nat>)
    ensures Sum(a + b) == Sum(a) + Sum(b)
  {
    if a == [] {
      assert a + b == b;
    } else {
      assert (a + b)[1..] == a[1..] + b;
      SumConcat(a[1..], b);
    }
  }

  function CallLen(c: Call): nat {
    25 + StringLen(c.arguments) + 8 + StringLen(c.name) + 7 + StringLen(c.id) + 19
  }

  function CallLens(calls: seq<Call>): (lens: seq<nat>)
    ensures |lens| == |calls|
  {
    seq(|calls|, i requires 0 <= i < |calls| => CallLen(calls[i]))
  }

  /** The length of one element of the wire format. */
  function MessageLen(m: Message): nat {
    11 + (if m.content.None? then 4 else StringLen(m.content.value)) + 8 + StringLen(m.role) + 1
    + (if m.toolCallId == "" then 0 else 16 + StringLen(m.toolCallId))
    + (if m.calls == [] then 0 else 14 + ArrayLen(CallLens(m.calls)))
  }

  function Lens(ms: seq<Message>): (lens: seq<nat>)
    ensures |lens| == |ms|
  {
    seq(|ms|, i requires 0 <= i < |ms| => MessageLen(ms[i]))
  }

  /** The length of the encoded message list. */
  function Serialized(ms: seq<Message>): nat {
    ArrayLen(Lens(ms))
  }

  /** Joining two lists saves the inner brackets and costs at most one comma. */
  lemma SerializedConcat(a: seq<Message>, b: seq<Message>)
    ensures Serialized(a + b) + 2 == Serialized(a) + Serialized(b) + if a == [] || b == [] then 0 else 1
  {
    assert Lens(a + b) == Lens(a) + Lens(b);
    SumConcat(Lens(a), Lens(b));
  }

  lemma {:induction false} SumUpdate(lens: seq<nat>, i: nat, n: nat)
    requires i < |lens|
    ensures Sum(lens[i := n]) + lens[i] == Sum(lens) + n
  {
    if i > 0 {
      assert lens[i := n][1..] == lens[1..][i - 1 := n];
      SumUpdate(lens[1..], i - 1, n);
    }
  }

  /** Replacing one message changes the size by exactly the difference of the two. */
  lemma SerializedUpdate(ms: seq<Message>, i: nat, m: Message)
    requires i < |ms|
    ensures Serialized(ms[i := m]) + MessageLen(ms[i]) == Serialized(ms) + MessageLen(m)
  {
    assert Lens(ms[i := m]) == Lens(ms)[i := MessageLen(m)];
    SumUpdate(Lens(ms), i, MessageLen(m));
  }
}
