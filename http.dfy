/** The HTTP side of the three uploaders, as values: the requests they send,
    the responses they read, the outcome record they return, and the status
    poll that all three end with. */
module Http {
  import opened Wrappers
  import opened Text

  datatype Verb = Get | Post | Put

  /** A JSON scalar in a request body. */
  datatype Json = JStr(s: string) | JNum(n: int)

  /** What travels in the request body: nothing (query parameters only), a
      JSON document flattened to dotted paths, or a file streamed from disk. */
  datatype Body = NoBody | JsonBody(fields: map<string, Json>) | FileStream(path: string)

  datatype Request = Request(
    verb: Verb,
    url: string,
    params: map<string, string>,
    headers: map<string, string>,
    body: Body)

  /** A response: the status code, the raw text, and the string-valued fields
      of its JSON body, keyed by dotted path ("error.code", "data.status"). */
  datatype Response = Response(status: nat, text: string, fields: map<string, string>)

  /** `resp.json().get(a, {}).get(b)` for the dotted path "a.b". */
  function Field(r: Response, path: string): Option<string> {
    Wrappers.Get(r.fields, path)
  }

  /** Python truthiness of an optional string: present and non-empty. */
  predicate Truthy(v: Option<string>) {
    v.Some? && v.value != ""
  }

  /** The dictionary an uploader returns: `success`, `platform`, `error` when
      it failed, and the platform ids it carries (`media_id`, `publish_id`,
      `video_id`), each possibly `None`. */
  datatype Outcome = Outcome(
    success: bool,
    platform: string,
    error: Option<string>,
    ids: map<string, Option<string>>)

  function Failure(platform: string, error: string): (o: Outcome)
    ensures !o.success && o.platform == platform && o.error == Some(error) && o.ids == map[]
  {
    Outcome(false, platform, Some(error), map[])
  }

  /** What one uploader run did: the outcome and every request it sent, in
      order. */
  datatype Exchange = Exchange(outcome: Outcome, sent: seq<Request>)

  function Repeat(r: Request, n: nat): (s: seq<Request>)
    ensures |s| == n && forall k :: 0 <= k < n ==> s[k] == r
  {
    seq(n, _ => r)
  }

  // ------------------------------------------------------------ status poll

  /** How one status response is read: keep polling, confirmed done, or an
      explicit error reported by the platform. */
  datatype Verdict = Pending | Complete | Errored(resp: Response)

  /** How a poll loop ends: a terminal verdict at poll index `at`, or the
      ceiling reached with every response pending. */
  datatype PollEnd = Ended(at: nat, verdict: Verdict) | TimedOut

  /** Each platform's policy for the ceiling: a failure with a message, or an
      implicit success. */
  datatype TimeoutPolicy = FailOnTimeout(message: string) | SucceedOnTimeout

  /** The first non-pending verdict among `polls[k..]`. */
  function FirstTerminal(polls: seq<Response>, judge: Response -> Verdict, k: nat): (e: PollEnd)
    requires k <= |polls|
    ensures e.Ended? ==> k <= e.at < |polls| && e.verdict != Pending && judge(polls[e.at]) == e.verdict
    ensures e.Ended? ==> forall m :: k <= m < e.at ==> judge(polls[m]) == Pending
    ensures e.TimedOut? <==> forall m :: k <= m < |polls| ==> judge(polls[m]) == Pending
    decreases |polls| - k
  {
    if k == |polls| then TimedOut
    else if judge(polls[k]) != Pending then Ended(k, judge(polls[k]))
    else FirstTerminal(polls, judge, k + 1)
  }

  /** The number of status requests a poll loop makes before it ends. */
  function PollsMade(polls: seq<Response>, e: PollEnd): nat {
    if e.Ended? then e.at + 1 else |polls|
  }

  /** The poll loop of every uploader. `polls` are the status responses that
      arrive before the time ceiling; the loop stops at the first terminal
      one, or runs out of them and reports the ceiling. */
  method Poll(polls: seq<Response>, judge: Response -> Verdict) returns (e: PollEnd)
    ensures e == FirstTerminal(polls, judge, 0)
    ensures PollsMade(polls, e) <= |polls|
  {
    var k := 0;
    while k < |polls|
      invariant 0 <= k <= |polls|
      invariant FirstTerminal(polls, judge, k) == FirstTerminal(polls, judge, 0)
    {
      var v := judge(polls[k]);
      if v != Pending {
        return Ended(k, v);
      }
      k := k + 1;
    }
    return TimedOut;
  }

  /** The outcome once the ceiling is reached, under a platform's policy. */
  function OnTimeout(policy: TimeoutPolicy, platform: string, ids: map<string, Option<string>>): (o: Outcome)
    ensures o.platform == platform
    ensures o.success <==> policy.SucceedOnTimeout?
    ensures policy.FailOnTimeout? ==> o.error == Some(policy.message)
  {
    match policy
    case FailOnTimeout(msg) => Failure(platform, msg)
    case SucceedOnTimeout => Outcome(true, platform, None, ids)
  }

  // ------------------------------------------- byte ranges (RFC 9110, 14.4)

  /** The first split of `s` at character `c`. */
  function SplitAt(s: string, c: char): (r: Option<(string, string)>)
    ensures r.Some? ==> s == r.value.0 + [c] + r.value.1 && c !in r.value.0
    ensures r.None? ==> c !in s
  {
    if s == [] then None
    else if s[0] == c then Some(([], s[1..]))
    else match SplitAt(s[1..], c)
      case None => None
      case Some(p) => Some(([s[0]] + p.0, p.1))
  }

  lemma SplitAtFirst(a: string, c: char, b: string)
    requires c !in a
    ensures SplitAt(a + [c] + b, c) == Some((a, b))
  {
    var s := a + [c] + b;
    assert s[|a|] == c;
    var r := SplitAt(s, c);
    var a', b' := r.value.0, r.value.1;
    assert forall i :: 0 <= i < |a| ==> s[i] == a[i];
    assert forall i :: 0 <= i < |a'| ==> s[i] == a'[i];
    assert s[|a'|] == c;
    assert |a'| == |a|;
    assert a' == s[..|a|] == a;
    assert b' == s[|a| + 1..] == b;
  }

  /** A `Content-Range` value `bytes first-last/complete`. */
  datatype ByteRange = ByteRange(first: nat, last: nat, complete: nat)

  /** Reads a `Content-Range` header; `None` if it is not of the form
      `bytes <digits>-<digits>/<digits>`. */
  function ParseContentRange(h: string): Option<ByteRange> {
    if |h| < 6 || h[..6] != "bytes " then None
    else match SplitAt(h[6..], '-')
      case None => None
      case Some(p) =>
        match SplitAt(p.1, '/')
        case None => None
        case Some(q) =>
          match (ParseNat(p.0), ParseNat(q.0), ParseNat(q.1))
          case (Some(f), Some(l), Some(c)) => Some(ByteRange(f, l, c))
          case _ => None
  }

  /** How a header of the shape `bytes a-b/c` reads: the three numbers when
      all three parts are digit strings, nothing otherwise. */
  lemma ParseContentRangeOf(a: string, b: string, c: string)
    requires '-' !in a && '/' !in b
    ensures var h := "bytes " + (a + ['-'] + (b + ['/'] + c));
            ParseContentRange(h) ==
              if ParseNat(a).Some? && ParseNat(b).Some? && ParseNat(c).Some?
              then Some(ByteRange(ParseNat(a).value, ParseNat(b).value, ParseNat(c).value))
              else None
  {
    var h := "bytes " + (a + ['-'] + (b + ['/'] + c));
    assert h[..6] == "bytes ";
    assert h[6..] == a + ['-'] + (b + ['/'] + c);
    SplitAtFirst(a, '-', b + ['/'] + c);
    SplitAtFirst(b, '/', c);
  }

  /** The range sends the whole representation: it starts at byte 0, ends at
      the last byte, and its length is the complete length. */
  predicate CoversWhole(r: ByteRange) {
    r.first == 0 && r.last + 1 == r.complete
  }
}
