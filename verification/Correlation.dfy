/** Default headers and flow correlation of sent messages, over whole causation trees. */
module Correlation {
  import opened Messages

  /******* Header values are coerced to text *******/

  datatype HeaderValue = Nothing | Text(text: string) | Number(number: int) | Truth(on: bool)

  function Digit(d: nat): char
    requires d < 10
  {
    '0' + d as char
  }

  function PrintNat(n: nat): (s: string)
    ensures |s| > 0
  {
    if n < 10 then [Digit(n)] else PrintNat(n / 10) + [Digit(n % 10)]
  }

  /** The decimal text of an integer. */
  function Print(n: int): string { if n < 0 then "-" + PrintNat(-n) else PrintNat(n) }

  function Str(v: HeaderValue): string {
    match v
    case Nothing => "None"
    case Text(t) => t
    case Number(n) => Print(n)
    case Truth(on) => if on then "True" else "False"
  }

  lemma StrOf(t: string, n: int)
    ensures Str(Nothing) == "None" && Str(Text(t)) == t && Str(Number(n)) == Print(n)
    ensures Str(Truth(true)) == "True" && Str(Truth(false)) == "False"
  {
  }

  lemma {:induction false} PrintNatForms(n: nat)
    ensures '0' <= PrintNat(n)[0] <= '9' && (PrintNat(n)[0] == '0' ==> n == 0) && (n < 10 ==> |PrintNat(n)| == 1)
  {
    if n >= 10 { PrintNatForms(n / 10); }
  }

  /** A minus sign for negative numbers only, and no leading zeros. */
  lemma PrintForms(n: int)
    ensures Print(n)[0] == '-' <==> n < 0
    ensures Print(n)[0] == '0' ==> Print(n) == "0"
  {
    PrintNatForms(if n < 0 then -n else n);
  }

  predicate IsDigit(c: char) { '0' <= c <= '9' }

  predicate AllDigits(s: string) { forall c :: c in s ==> IsDigit(c) }

  function ParseNat(s: string): nat
    requires AllDigits(s)
  {
    if s == [] then 0 else
      assert s[|s| - 1] in s;
      ParseNat(s[..|s| - 1]) * 10 + (s[|s| - 1] - '0') as nat
  }

  /** The decimal forms that `int` accepts: an optional sign and at least one digit. */
  function Parse(s: string): Option<int> {
    if s == "" then None
    else if s[0] == '-' then (if s[1..] != "" && AllDigits(s[1..]) then Some(-(ParseNat(s[1..]) as int)) else None)
    else if s[0] == '+' then (if s[1..] != "" && AllDigits(s[1..]) then Some(ParseNat(s[1..])) else None)
    else if AllDigits(s) then Some(ParseNat(s)) else None
  }

  lemma {:induction false} ParseDigits(n: nat)
    ensures AllDigits(PrintNat(n)) && ParseNat(PrintNat(n)) == n
  {
    if n < 10 {
      assert [Digit(n)][..0] == [];
    } else {
      ParseDigits(n / 10);
      var s := PrintNat(n);
      assert s[..|s| - 1] == PrintNat(n / 10);
    }
  }

  /** Printing and parsing a sequence number are inverse. */
  lemma ParsePrint(n: int)
    ensures Parse(Print(n)) == Some(n)
  {
    ParseDigits(if n < 0 then -n else n);
    if n < 0 {
      assert Print(n)[1..] == PrintNat(-n);
    } else {
      assert PrintNat(n)[0] in PrintNat(n);
    }
  }

  /** A text is a number only if its characters after the first are digits, and the first one or a sign before them. */
  lemma ParseForms(s: string)
    ensures Parse(s).Some? <==>
              && |s| > 0 && (forall i :: 1 <= i < |s| ==> '0' <= s[i] <= '9')
              && ('0' <= s[0] <= '9' || (|s| > 1 && (s[0] == '-' || s[0] == '+')))
    ensures |s| > 1 && s[0] == '+' && Parse(s[1..]).Some? && s[1] != '-' && s[1] != '+' ==> Parse(s) == Parse(s[1..])
  {
    if |s| > 0 {
      DigitsAt(s);
      DigitsAt(s[1..]);
      assert forall i :: 1 <= i < |s| ==> s[i] == s[1..][i - 1];
    }
  }

  lemma DigitsAt(s: string)
    ensures AllDigits(s) <==> forall i :: 0 <= i < |s| ==> '0' <= s[i] <= '9'
  {
    if AllDigits(s) {
      forall i | 0 <= i < |s|
        ensures '0' <= s[i] <= '9'
      {
        assert s[i] in s;
      }
    }
  }

  class MessageHeaders {
    var data: Headers

    constructor (data: Headers)
      ensures this.data == data
    {
      this.data := data;
    }

    method SetItem(key: string, item: HeaderValue)
      modifies this
      ensures data == old(data)[key := Str(item)]
    {
      data := data[key := Str(item)];
    }
  }

  function Got(h: Headers, key: string): Option<string> { if key in h then Some(h[key]) else None }

  /** `not headers.get(key)`: absent or empty. */
  predicate Unset(h: Headers, key: string) { key !in h || h[key] == "" }

  function Value(o: Option<string>): HeaderValue { if o.Some? then Text(o.value) else Nothing }

  /******* The two steps *******/

  const SENT_TIME_KEY := "sent_time"

  function Defaulted(h: Headers, id: string, now: string): Headers {
    var h1 := if Unset(h, MESSAGE_ID_KEY) then h[MESSAGE_ID_KEY := id] else h;
    if Unset(h1, SENT_TIME_KEY) then h1[SENT_TIME_KEY := now] else h1
  }

  /** Id and time are filled in where they are missing or empty; nothing else changes. */
  lemma DefaultsFillIn(h: Headers, id: string, now: string, key: string)
    ensures var h' := Defaulted(h, id, now);
            && "message_id" in h' && "sent_time" in h'
            && h'["message_id"] == (if "message_id" in h && h["message_id"] != "" then h["message_id"] else id)
            && h'["sent_time"] == (if "sent_time" in h && h["sent_time"] != "" then h["sent_time"] else now)
            && (key != "message_id" && key != "sent_time" ==>
                  (key in h' <==> key in h) && (key in h ==> h'[key] == h[key]))
  {
  }

  method SetDefaultHeaders(headers: MessageHeaders, id: string, now: string)
    modifies headers
    ensures headers.data == Defaulted(old(headers.data), id, now)
  {
    if Unset(headers.data, MESSAGE_ID_KEY) { headers.SetItem(MESSAGE_ID_KEY, Text(id)); }
    if Unset(headers.data, SENT_TIME_KEY) { headers.SetItem(SENT_TIME_KEY, Text(now)); }
  }

  /** A sequence header that is missing or not a number counts as 0. */
  function SequenceOf(h: Headers): int {
    match Got(h, CORRELATION_SEQUENCE_KEY)
    case None => 0
    case Some(text) => Parse(text).GetOr(0)
  }

  function CorrelationIdOf(h: Headers): Option<string> {
    if CORRELATION_ID_KEY in h then Some(h[CORRELATION_ID_KEY]) else Got(h, MESSAGE_ID_KEY)
  }

  /**
   The correlation id of a message is its header, or its own id without one; its sequence is 0
   unless a number is given.
   */
  lemma FlowOfHeaders(h: Headers, n: int)
    ensures "correlation_id" in h ==> CorrelationIdOf(h) == Some(h["correlation_id"])
    ensures "correlation_id" !in h && "message_id" in h ==> CorrelationIdOf(h) == Some(h["message_id"])
    ensures "correlation_id" !in h && "message_id" !in h ==> CorrelationIdOf(h) == None
    ensures "correlation_sequence" !in h || Parse(h["correlation_sequence"]).None? ==> SequenceOf(h) == 0
    ensures "correlation_sequence" in h && h["correlation_sequence"] == Print(n) ==> SequenceOf(h) == n
  {
    ParsePrint(n);
  }

  function GetCorrelationIdAndSequence(incoming: Option<Headers>, sent: Headers): (Option<string>, int) {
    if incoming.Some? then (CorrelationIdOf(incoming.value), SequenceOf(incoming.value) + 1)
    else (Got(sent, MESSAGE_ID_KEY), 0)
  }

  function GetCausationId(incoming: Option<Headers>, sent: Headers): Option<string> {
    Got(if incoming.Some? then incoming.value else sent, MESSAGE_ID_KEY)
  }

  function Correlated(h: Headers, incoming: Option<Headers>): Headers {
    var given := GetCorrelationIdAndSequence(incoming, h);
    var h1 :=
      if Unset(h, CORRELATION_ID_KEY)
      then h[CORRELATION_ID_KEY := Str(Value(given.0))][CORRELATION_SEQUENCE_KEY := Str(Number(given.1))] else h;
    if Unset(h1, CAUSATION_ID_KEY) then h1[CAUSATION_ID_KEY := Str(Value(GetCausationId(incoming, h1)))] else h1
  }

  /**
   Flow headers are filled in where they are missing or empty, from the message being handled
   or else from the message itself; headers that the sender gave stay, and nothing else changes.
   */
  lemma CorrelationFillsIn(h: Headers, incoming: Option<Headers>, key: string)
    ensures var h' := Correlated(h, incoming);
            var own := "correlation_id" in h && h["correlation_id"] != "";
            && "correlation_id" in h' && "causation_id" in h'
            && h'["correlation_id"] == (
                 if own then h["correlation_id"]
                 else if incoming.Some? then Str(Value(CorrelationIdOf(incoming.value)))
                 else if "message_id" in h then h["message_id"] else "None")
            && (own ==> Got(h', "correlation_sequence") == Got(h, "correlation_sequence"))
            && (!own ==> Got(h', "correlation_sequence")
                         == Some(Print(if incoming.Some? then SequenceOf(incoming.value) + 1 else 0)))
            && h'["causation_id"] == (
                 if "causation_id" in h && h["causation_id"] != "" then h["causation_id"]
                 else var from := if incoming.Some? then incoming.value else h;
                      if "message_id" in from then from["message_id"] else "None")
            && (key != "correlation_id" && key != "correlation_sequence" && key != "causation_id" ==>
                  (key in h' <==> key in h) && (key in h ==> h'[key] == h[key]))
  {
  }

  /** `incoming` holds the headers of the message being handled, if there is one. */
  method FlowCorrelationStep(headers: MessageHeaders, incoming: Option<Headers>)
    modifies headers
    ensures headers.data == Correlated(old(headers.data), incoming)
  {
    if Unset(headers.data, CORRELATION_ID_KEY) {
      var given := GetCorrelationIdAndSequence(incoming, headers.data);
      headers.SetItem(CORRELATION_ID_KEY, Value(given.0));
      headers.SetItem(CORRELATION_SEQUENCE_KEY, Number(given.1));
    }
    if Unset(headers.data, CAUSATION_ID_KEY) {
      headers.SetItem(CAUSATION_ID_KEY, Value(GetCausationId(incoming, headers.data)));
    }
  }

  /******* Causation trees *******/

  /**
   A message sent, with the caller's headers, the id and time at hand and the message being
   handled, or one that arrives from outside with any headers.
   */
  datatype Send =
    | Send(headers: Headers, id: string, now: string, handled: Option<nat>)
    | Arrival(headers: Headers)
  {
    /** The message it was sent for. */
    function Parent(): Option<nat> { if Arrival? then None else handled }

    predicate SetsCorrelation() { Send? && !Unset(headers, CORRELATION_ID_KEY) }

    predicate StartsFlow() { Parent().None? || SetsCorrelation() }

    function Id(): Option<string> {
      if Arrival? then Got(headers, MESSAGE_ID_KEY)
      else Some(if Unset(headers, MESSAGE_ID_KEY) then id else headers[MESSAGE_ID_KEY])
    }

    /** The correlation id of the flow that starts here, and the number it starts with. */
    function FlowId(): Option<string> {
      if Arrival? then CorrelationIdOf(headers)
      else if SetsCorrelation() then Some(headers[CORRELATION_ID_KEY]) else Id()
    }

    function FlowStart(): int { if Arrival? || SetsCorrelation() then SequenceOf(headers) else 0 }
  }

  /** A message is handled after it was sent. */
  predicate Forest(sends: seq<Send>) {
    forall i :: 0 <= i < |sends| && sends[i].Parent().Some? ==> sends[i].Parent().value < i
  }

  /** The headers that message i carries on the wire. */
  function Wire(sends: seq<Send>, i: nat): Headers
    requires Forest(sends) && i < |sends|
    decreases i
  {
    var m := sends[i];
    if m.Arrival? then m.headers else
      Correlated(Defaulted(m.headers, m.id, m.now),
                 if m.Parent().Some? then Some(Wire(sends, m.Parent().value)) else None)
  }

  /** Where the flow of message i starts: a root, or the nearest message whose sender chose a correlation id. */
  function Origin(sends: seq<Send>, i: nat): (o: nat)
    requires Forest(sends) && i < |sends|
    ensures o <= i
    decreases i
  {
    if sends[i].StartsFlow() then i else Origin(sends, sends[i].Parent().value)
  }

  /** How many handlings lie between a message and its origin. */
  function Depth(sends: seq<Send>, i: nat): nat
    requires Forest(sends) && i < |sends|
    decreases i
  {
    if sends[i].StartsFlow() then 0 else 1 + Depth(sends, sends[i].Parent().value)
  }

  /** What one send does to its headers, given those of the message being handled. */
  lemma SendHeaders(m: Send, incoming: Option<Headers>)
    requires m.Send?
    ensures var h := Correlated(Defaulted(m.headers, m.id, m.now), incoming);
            && Got(h, MESSAGE_ID_KEY) == m.Id()
            && (m.SetsCorrelation() ==>
                  Got(h, CORRELATION_ID_KEY) == m.FlowId() && SequenceOf(h) == m.FlowStart())
            && (!m.SetsCorrelation() && incoming.None? ==>
                  Got(h, CORRELATION_ID_KEY) == m.Id() && Got(h, CORRELATION_SEQUENCE_KEY) == Some(Print(0)))
            && (!m.SetsCorrelation() && incoming.Some? ==>
                  && Got(h, CORRELATION_ID_KEY) == Some(Str(Value(CorrelationIdOf(incoming.value))))
                  && Got(h, CORRELATION_SEQUENCE_KEY) == Some(Print(SequenceOf(incoming.value) + 1)))
  {
  }

  lemma SendCausation(m: Send, incoming: Option<Headers>)
    requires m.Send?
    ensures Got(Correlated(Defaulted(m.headers, m.id, m.now), incoming), CAUSATION_ID_KEY) == Some(
              if !Unset(m.headers, CAUSATION_ID_KEY) then m.headers[CAUSATION_ID_KEY]
              else Str(Value(if incoming.Some? then Got(incoming.value, MESSAGE_ID_KEY) else m.Id())))
  {
  }

  /**
   The headers say which flow message i belongs to and how far along it is. A message from
   outside without a correlation id goes by its own id; where there is neither, the text of
   nothing is passed on.
   */
  ghost predicate InFlow(h: Headers, m: Send, id: Option<string>, at: int) {
    && Got(h, MESSAGE_ID_KEY) == m.Id() && SequenceOf(h) == at
    && (m.Arrival? ==> CorrelationIdOf(h) == id)
    && (m.Send? ==> Got(h, CORRELATION_ID_KEY) == Some(Str(Value(id))))
    && (m.Send? && !m.SetsCorrelation() ==> Got(h, CORRELATION_SEQUENCE_KEY) == Some(Print(at)))
  }

  lemma {:induction false} StaysInFlow(sends: seq<Send>, i: nat)
    requires Forest(sends) && i < |sends|
    ensures var o := sends[Origin(sends, i)];
            InFlow(Wire(sends, i), sends[i], o.FlowId(), o.FlowStart() + Depth(sends, i))
    decreases i
  {
    var m := sends[i];
    if m.Send? && m.Parent().None? {
      SendHeaders(m, None);
      ParsePrint(0);
    } else if m.Send? {
      var p := Wire(sends, m.Parent().value);
      SendHeaders(m, Some(p));
      if !m.SetsCorrelation() {
        StaysInFlow(sends, m.Parent().value);
        ParsePrint(SequenceOf(p) + 1);
      }
    }
  }

  /**
   Every message carries the correlation id of the message its flow started from, counted on
   by its depth, and every message sent the id of the message it was sent for.
   */
  lemma CorrelationFollowsTheTree(sends: seq<Send>, i: nat)
    requires Forest(sends) && i < |sends|
    ensures var m, o := sends[i], sends[Origin(sends, i)];
            InFlow(Wire(sends, i), m, o.FlowId(), o.FlowStart() + Depth(sends, i))
    ensures var m := sends[i];
            m.Send? ==> Got(Wire(sends, i), CAUSATION_ID_KEY) == Some(
              if !Unset(m.headers, CAUSATION_ID_KEY) then m.headers[CAUSATION_ID_KEY]
              else Str(Value(if m.handled.Some? then sends[m.handled.value].Id() else m.Id())))
  {
    var m := sends[i];
    StaysInFlow(sends, i);
    if m.Parent().Some? {
      StaysInFlow(sends, m.Parent().value);
      SendCausation(m, Some(Wire(sends, m.Parent().value)));
    } else if m.Send? {
      SendCausation(m, None);
    }
  }

  /** Flows go on from a message to those sent for it, one further along each, unless these choose a correlation id. */
  lemma FlowsGoOn(sends: seq<Send>, i: nat)
    requires Forest(sends) && i < |sends|
    ensures var m := sends[i];
            if m.Send? && m.handled.Some? && !("correlation_id" in m.headers && m.headers["correlation_id"] != "")
            then Origin(sends, i) == Origin(sends, m.handled.value)
              && Depth(sends, i) == Depth(sends, m.handled.value) + 1
            else Origin(sends, i) == i && Depth(sends, i) == 0
  {
  }

  function Root(sends: seq<Send>, i: nat): nat
    requires Forest(sends) && i < |sends|
    ensures Root(sends, i) <= i
    decreases i
  {
    if sends[i].Parent().None? then i else Root(sends, sends[i].Parent().value)
  }

  function TreeDepth(sends: seq<Send>, i: nat): nat
    requires Forest(sends) && i < |sends|
    decreases i
  {
    if sends[i].Parent().None? then 0 else 1 + TreeDepth(sends, sends[i].Parent().value)
  }

  lemma {:induction false} OriginIsRoot(sends: seq<Send>, i: nat)
    requires Forest(sends) && i < |sends| && forall m :: m in sends ==> !m.SetsCorrelation()
    ensures Origin(sends, i) == Root(sends, i) && Depth(sends, i) == TreeDepth(sends, i)
    decreases i
  {
    assert sends[i] in sends;
    if sends[i].Parent().Some? { OriginIsRoot(sends, sends[i].Parent().value); }
  }

  /**
   When senders set no correlation headers: the id of the root's flow, its start and the depth
   in the tree, and the parent's id.
   */
  lemma UntouchedFlows(sends: seq<Send>, i: nat)
    requires Forest(sends) && i < |sends| && sends[i].Send?
    requires forall m :: m in sends && m.Send? ==> !m.SetsCorrelation() && Unset(m.headers, CAUSATION_ID_KEY)
    ensures var h, m, root := Wire(sends, i), sends[i], sends[Root(sends, i)];
            && (root.Send? ==> root.FlowId() == root.Id() && root.FlowStart() == 0)
            && Got(h, CORRELATION_ID_KEY) == Some(Str(Value(root.FlowId())))
            && Got(h, CORRELATION_SEQUENCE_KEY) == Some(Print(root.FlowStart() + TreeDepth(sends, i)))
            && var cause := if m.Parent().Some? then sends[m.Parent().value] else m;
               Got(h, CAUSATION_ID_KEY) == Some(Str(Value(cause.Id())))
  {
    assert sends[i] in sends && sends[Root(sends, i)] in sends;
    CorrelationFollowsTheTree(sends, i);
    OriginIsRoot(sends, i);
  }
}
