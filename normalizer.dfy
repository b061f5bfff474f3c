/** The issue normaliser: `parseData` turns one exported page of the issue
    tracker into flat issue records. Nested objects of the export that may be
    missing (`issuetype`, `status`, `parent`) are read with optional chaining,
    so an absent object, or one without the inner field, gives an absent value. */
module Normalizer {
  import opened Wrappers

  /** A nested `{name}` object of the export (`issuetype`, `status`). */
  datatype Named = Named(name: Option<string>)

  /** The nested `{key}` object of the export (`parent`). */
  datatype KeyRef = KeyRef(key: Option<string>)

  /** The `fields` object of one exported issue; `storyPoints` is `customfield_10016`. */
  datatype RawFields = RawFields(
    issuetype: Option<Named>,
    summary: string,
    labels: seq<string>,
    storyPoints: Option<int>,
    status: Option<Named>,
    parent: Option<KeyRef>)

  datatype RawIssue = RawIssue(key: string, fields: RawFields)

  /** One exported page; `issues` is absent on a malformed page. */
  datatype RawPage = RawPage(issues: Option<seq<RawIssue>>)

  /** The flat issue record the rest of the board works on. */
  datatype Issue = Issue(
    key: string,
    issueType: Option<string>,
    title: string,
    labels: seq<string>,
    point: Option<int>,
    status: Option<string>,
    parent: Option<string>)

  /** `obj?.name` */
  function NameOf(obj: Option<Named>): (r: Option<string>)
    ensures r.Some? <==> obj.Some? && obj.value.name.Some?
    ensures r.Some? ==> r.value == obj.value.name.value
  {
    match obj
    case None => None
    case Some(n) => n.name
  }

  /** `obj?.key` */
  function KeyOf(obj: Option<KeyRef>): (r: Option<string>)
    ensures r.Some? <==> obj.Some? && obj.value.key.Some?
    ensures r.Some? ==> r.value == obj.value.key.value
  {
    match obj
    case None => None
    case Some(k) => k.key
  }

  /** The destructuring of one exported issue into a flat record. */
  function Flatten(raw: RawIssue): (r: Issue)
    ensures r.key == raw.key && r.title == raw.fields.summary
    ensures r.labels == raw.fields.labels && r.point == raw.fields.storyPoints
    ensures raw.fields.issuetype.None? ==> r.issueType.None?
    ensures raw.fields.status.None? ==> r.status.None?
    ensures raw.fields.parent.None? ==> r.parent.None?
  {
    Issue(raw.key, NameOf(raw.fields.issuetype), raw.fields.summary, raw.fields.labels,
          raw.fields.storyPoints, NameOf(raw.fields.status), KeyOf(raw.fields.parent))
  }

  /** `issues.map(...)`: one flat record per exported issue, in the same order. */
  function ParseIssues(xs: seq<RawIssue>): (r: seq<Issue>)
    ensures |r| == |xs|
    ensures forall i :: 0 <= i < |xs| ==> r[i] == Flatten(xs[i])
  {
    if xs == [] then [] else [Flatten(xs[0])] + ParseIssues(xs[1..])
  }

  /** `parseData`: absent exactly on a page without `issues`; otherwise the
      page's issues, flattened, one for one and in order. */
  function ParseData(page: RawPage): (r: Option<seq<Issue>>)
    ensures r.None? <==> page.issues.None?
    ensures r.Some? ==> |r.value| == |page.issues.value|
    ensures r.Some? ==> forall i :: 0 <= i < |r.value| ==> r.value[i].key == page.issues.value[i].key
  {
    match page.issues
    case None => None
    case Some(xs) => Some(ParseIssues(xs))
  }

  /** The export form of a flat record: the partner of `Flatten`. */
  function Embed(i: Issue): RawIssue {
    RawIssue(i.key, RawFields(
      if i.issueType.Some? then Some(Named(i.issueType)) else None,
      i.title, i.labels, i.point,
      if i.status.Some? then Some(Named(i.status)) else None,
      if i.parent.Some? then Some(KeyRef(i.parent)) else None))
  }

  function EmbedAll(issues: seq<Issue>): seq<RawIssue> {
    if issues == [] then [] else [Embed(issues[0])] + EmbedAll(issues[1..])
  }

  /** Flattening loses nothing a flat record carries. */
  lemma FlattenEmbed(i: Issue)
    ensures Flatten(Embed(i)) == i
  {
  }

  /** Re-exported flat records parse back to exactly those records. */
  lemma {:induction false} ParseIssuesRoundTrip(issues: seq<Issue>)
    ensures ParseIssues(EmbedAll(issues)) == issues
  {
    if issues != [] {
      var xs := EmbedAll(issues);
      assert xs[1..] == EmbedAll(issues[1..]);
      ParseIssuesRoundTrip(issues[1..]);
      FlattenEmbed(issues[0]);
      assert ParseIssues(xs) == [issues[0]] + issues[1..];
    }
  }

  /** A page re-exported from flat records parses back to exactly those records. */
  lemma {:induction false} ParseDataRoundTrip(issues: seq<Issue>)
    ensures ParseData(RawPage(Some(EmbedAll(issues)))) == Some(issues)
  {
    ParseIssuesRoundTrip(issues);
  }
}
