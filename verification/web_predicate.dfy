/**
 * The test-side message builder's web-element predicates: each setter
 * stores a `{"type": tag, "value": v}` object under "webPredicate", and
 * `webAt` stores the element index under "webAtIndex".
 */
module WebPredicate {
  import opened Wrappers
  import opened Params

  /** The message being built, `MessageBuilder.message`. */
  type Message = map<string, Value>

  const PredicateKey := "webPredicate"
  const IndexKey := "webAtIndex"

  /** The eleven `set…WebPredicate` setters. */
  datatype Setter =
    | ById | ByName | ByClassName | ByCssSelector | ByLabel | ByValue | ByXpath
    | ByHref | ByHrefContains | ByTag | ByType

  /** The tag each setter stores as the predicate's type. */
  function Tag(s: Setter): string {
    match s
    case ById => "id"
    case ByName => "name"
    case ByClassName => "class"
    case ByCssSelector => "css"
    case ByLabel => "label"
    case ByValue => "value"
    case ByXpath => "xpath"
    case ByHref => "href"
    case ByHrefContains => "hrefContains"
    case ByTag => "tag"
    case ByType => "accessibilityType"
  }

  /** Which setter stores a tag. */
  function SetterOf(tag: string): (r: Option<Setter>)
    ensures r.Some? ==> Tag(r.value) == tag
  {
    if tag == "id" then Some(ById)
    else if tag == "name" then Some(ByName)
    else if tag == "class" then Some(ByClassName)
    else if tag == "css" then Some(ByCssSelector)
    else if tag == "label" then Some(ByLabel)
    else if tag == "value" then Some(ByValue)
    else if tag == "xpath" then Some(ByXpath)
    else if tag == "href" then Some(ByHref)
    else if tag == "hrefContains" then Some(ByHrefContains)
    else if tag == "tag" then Some(ByTag)
    else if tag == "accessibilityType" then Some(ByType)
    else None
  }

  /** Every tag leads back to its setter. */
  lemma SetterOfTag(s: Setter)
    ensures SetterOf(Tag(s)) == Some(s)
  {
  }

  /** No two setters share a tag. */
  lemma TagsDistinct(s1: Setter, s2: Setter)
    requires Tag(s1) == Tag(s2)
    ensures s1 == s2
  {
    SetterOfTag(s1);
    SetterOfTag(s2);
  }

  /** The stored predicate object. */
  function Predicate(tag: string, value: string): (v: Value)
    ensures v.Object? && v.fields.Keys == {"type", "value"}
    ensures v.fields["type"] == Text(tag) && v.fields["value"] == Text(value)
  {
    Object(map["type" := Text(tag), "value" := Text(value)])
  }

  /** `setWebPredicate`: replaces whatever predicate the message held; no other key changes. */
  function SetWebPredicate(msg: Message, tag: string, value: string): (r: Message)
    ensures r.Keys == msg.Keys + {PredicateKey}
    ensures r[PredicateKey] == Predicate(tag, value)
    ensures forall k | k in msg && k != PredicateKey :: r[k] == msg[k]
  {
    msg[PredicateKey := Predicate(tag, value)]
  }

  /** `set…WebPredicate(value)`. */
  function Set(msg: Message, s: Setter, value: string): Message {
    SetWebPredicate(msg, Tag(s), value)
  }

  /** `webAt(index:)`: stores the index; no other key changes. */
  function WebAt(msg: Message, index: nat): (r: Message)
    ensures r.Keys == msg.Keys + {IndexKey}
    ensures r[IndexKey] == Number(index as real)
    ensures forall k | k in msg && k != IndexKey :: r[k] == msg[k]
  {
    msg[IndexKey := Number(index as real)]
  }

  /** The setter and value a message's predicate was built with, read back from the message. */
  function StoredPredicate(msg: Message): Option<(Setter, string)> {
    if PredicateKey in msg && msg[PredicateKey].Object? then
      var fields := msg[PredicateKey].fields;
      if "type" in fields && fields["type"].Text? && "value" in fields && fields["value"].Text? then
        match SetterOf(fields["type"].s)
        case Some(s) => Some((s, fields["value"].s))
        case None => None
      else None
    else None
  }

  /** A setter's predicate can be read back: its setter from the tag, and its value. */
  lemma SetThenRead(msg: Message, s: Setter, value: string)
    ensures StoredPredicate(Set(msg, s, value)) == Some((s, value))
  {
    SetterOfTag(s);
  }

  /** Of two predicate setters the last one wins, so setting the same predicate twice is setting it once. */
  lemma LastSetterWins(msg: Message, s1: Setter, v1: string, s2: Setter, v2: string)
    ensures Set(Set(msg, s1, v1), s2, v2) == Set(msg, s2, v2)
    ensures Set(Set(msg, s2, v2), s2, v2) == Set(msg, s2, v2)
  {
  }

  /** Setting a predicate keeps the element index, and `webAt` keeps the predicate: the two commute. */
  lemma IndexAndPredicateIndependent(msg: Message, index: nat, s: Setter, value: string)
    ensures Set(WebAt(msg, index), s, value) == WebAt(Set(msg, s, value), index)
    ensures StoredPredicate(WebAt(Set(msg, s, value), index)) == Some((s, value))
  {
    SetThenRead(msg, s, value);
    assert WebAt(Set(msg, s, value), index)[PredicateKey] == Set(msg, s, value)[PredicateKey];
  }
}
