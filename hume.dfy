/** The emotion-analysis round trip as the components see it. The network call
    itself is not modelled: each call is represented by the value it settles to
    (a `Reply`), and what matters here is how the components read that value.

    The text components (src/App.tsx and both EmotionDetector.tsx files) read a
    reply with the expression `data?.emotions[0]?.name || 'neutral'` inside a
    `try` block; `Settle` is that block, up to the catch. */
module Hume {
  import opened Common

  /** One element of `emotions`; `name` is `None` when it is absent or null. */
  datatype Entry = Entry(name: Option<string>)

  /** The decoded JSON value `data`: `null`, or an object whose `emotions` field
      is absent or null (`None`) or a list whose elements may be null (`None`). */
  datatype Body = NullBody | Object(emotions: Option<seq<Option<Entry>>>)

  /** What `response.json()` gives: a value, or a parse error with its text. */
  datatype Parsed = Unparsable(err: string) | Json(data: Body)

  /** The outcome of `fetch`: a thrown error (rendered with `String(err)`), or a
      response with its HTTP status and its decoded body. */
  datatype Reply = Thrown(err: string) | Received(status: nat, body: Parsed)

  /** The fallback label. */
  const Neutral: string := "neutral"

  /** `data.emotions[0]`, when `data` is an object with a non-empty list. Only
      the head of the list is ever looked at. */
  function FirstEntry(data: Body): (first: Option<Entry>)
    ensures first.Some? ==>
      data.Object? && data.emotions.Some? && |data.emotions.value| > 0 && first == data.emotions.value[0]
    ensures data.NullBody? || data.emotions.None? || data.emotions == Some([]) ==> first.None?
    ensures data.Object? && data.emotions.Some? && |data.emotions.value| > 0 ==> first == data.emotions.value[0]
  {
    if data.Object? && data.emotions.Some? && |data.emotions.value| > 0 then data.emotions.value[0] else None
  }

  /** `data?.emotions[0]?.name || 'neutral'`: `None` when evaluating it throws
      (a TypeError on indexing an absent `emotions`), otherwise the label.
      A null `data` short-circuits the whole chain to `undefined`, and the
      empty string is falsy, so both give the fallback. */
  function ExtractLabel(data: Body): (r: Option<string>)
    ensures r.None? <==> data.Object? && data.emotions.None?
    ensures r.Some? ==> r.value != ""
    ensures r.Some? && r.value != Neutral ==> FirstEntry(data) == Some(Entry(Some(r.value)))
    ensures FirstEntry(data).Some? && FirstEntry(data).value.name.Some? && FirstEntry(data).value.name.value != "" ==>
      r == FirstEntry(data).value.name
  {
    match data
    case NullBody => Some(Neutral)
    case Object(None) => None
    case Object(Some(es)) =>
      if |es| == 0 then Some(Neutral)
      else match es[0]
        case None => Some(Neutral)
        case Some(Entry(None)) => Some(Neutral)
        case Some(Entry(Some(name))) => Some(if name == "" then Neutral else name)
  }

  /** The `try` block of the text components: `Some(label)` when it completes,
      `None` when something in it throws (fetch, `response.json()`, or the
      label expression). The HTTP status is never looked at. */
  function Settle(reply: Reply): (r: Option<string>)
    ensures r.None? <==> reply.Thrown? || reply.body.Unparsable? || ExtractLabel(reply.body.data).None?
    ensures r.Some? ==> r == ExtractLabel(reply.body.data)
  {
    match reply
    case Thrown(_) => None
    case Received(_, Unparsable(_)) => None
    case Received(_, Json(data)) => ExtractLabel(data)
  }

  /** Only the first element of `emotions` is read: whatever follows it, the
      label is the same. */
  lemma LabelReadsOnlyFirstEntry(first: Option<Entry>, rest1: seq<Option<Entry>>, rest2: seq<Option<Entry>>)
    ensures ExtractLabel(Object(Some([first] + rest1))) == ExtractLabel(Object(Some([first] + rest2)))
  {
  }

  /** The label is the first entry's name, not the best-scoring one: a list whose
      first entry is "calm" gives "calm" whatever entries follow it. */
  lemma FirstEntryWins(rest: seq<Option<Entry>>)
    ensures ExtractLabel(Object(Some([Some(Entry(Some("calm")))] + rest))) == Some("calm")
  {
  }

  /** An error status with a well-formed body settles exactly as a success does. */
  lemma StatusIgnored(s1: nat, s2: nat, body: Parsed)
    ensures Settle(Received(s1, body)) == Settle(Received(s2, body))
  {
  }
}
