/** The strings the tables are keyed by stand for their parts: no two passes and no two
    notices share one. */
module Keys {
  import opened Store
  import T = Text

  predicate NoColon(s: string) {
    forall k :: 0 <= k < |s| ==> s[k] != ':'
  }

  /** Segments joined by colons; all but the last are free of them. */
  function Joined(parts: seq<string>): string {
    if parts == [] then "" else if |parts| == 1 then parts[0] else parts[0] + ":" + Joined(parts[1..])
  }

  predicate Clean(parts: seq<string>) {
    parts != [] && forall k :: 0 <= k < |parts| - 1 ==> NoColon(parts[k])
  }

  lemma ColonAt(a: string, x: string)
    requires NoColon(a)
    ensures |a + ":" + x| > |a| && (a + ":" + x)[|a|] == ':' && (a + ":" + x)[..|a|] == a
            && (a + ":" + x)[|a| + 1..] == x
    ensures forall k :: 0 <= k < |a| ==> (a + ":" + x)[k] != ':'
  {
    assert forall k :: 0 <= k < |a| ==> (a + ":" + x)[k] == a[k];
  }

  /** The first colon of a joined string is the one after its first segment. */
  lemma {:induction false} FirstSegment(a: string, x: string, b: string, y: string)
    requires NoColon(a) && NoColon(b) && a + ":" + x == b + ":" + y
    ensures a == b && x == y
  {
    ColonAt(a, x);
    ColonAt(b, y);
    assert |a| == |b|;
  }

  /** Two lists of as many segments that join to the same string are the same list. */
  lemma {:induction false} JoinedIsInjective(a: seq<string>, b: seq<string>)
    requires Clean(a) && Clean(b) && |a| == |b| && Joined(a) == Joined(b)
    ensures a == b
  {
    if |a| > 1 {
      FirstSegment(a[0], Joined(a[1..]), b[0], Joined(b[1..]));
      JoinedIsInjective(a[1..], b[1..]);
      assert a == [a[0]] + a[1..] && b == [b[0]] + b[1..];
    }
  }

  lemma {:induction false} HeadDiffers(a: seq<string>, b: seq<string>)
    requires Clean(a) && Clean(b) && |a| > 1 && |b| > 1 && a[0] != b[0]
    ensures Joined(a) != Joined(b)
  {
    if Joined(a) == Joined(b) {
      FirstSegment(a[0], Joined(a[1..]), b[0], Joined(b[1..]));
    }
  }

  lemma {:induction false} DecIsInjective(m: nat, n: nat)
    requires T.Dec(m) == T.Dec(n)
    ensures m == n
  {
    T.DecRoundTrip(m);
    T.DecRoundTrip(n);
  }

  lemma DecHasNoColon(n: nat)
    ensures NoColon(T.Dec(n))
  {
  }

  // ----- keys --------------------------------------------------------------------------------

  /** GitHub's repo names and commit hashes carry no colon, and its numbers are natural. */
  predicate Real(k: Key) {
    NoColon(k.repo) && k.pr >= 0 && NoColon(k.head)
  }

  function KeyParts(k: Key): seq<string>
    requires k.pr >= 0
  {
    [k.repo, T.Dec(k.pr), k.head, k.request]
  }

  /** `dedup_key`. */
  function DedupKey(k: Key): string
    requires k.pr >= 0
  {
    k.repo + ":" + T.Dec(k.pr) + ":" + k.head + ":" + k.request
  }

  lemma {:induction false} KeyIsJoined(k: Key)
    requires k.pr >= 0
    ensures DedupKey(k) == Joined(KeyParts(k))
  {
    var p := KeyParts(k);
    assert p[1..] == [T.Dec(k.pr), k.head, k.request];
    assert p[1..][1..] == [k.head, k.request];
    assert p[1..][1..][1..] == [k.request];
    assert Joined(p[1..][1..]) == k.head + ":" + k.request;
    assert Joined(p[1..]) == T.Dec(k.pr) + ":" + (k.head + ":" + k.request);
    assert Joined(p) == k.repo + ":" + Joined(p[1..]);
    Assoc4(k.repo, T.Dec(k.pr), k.head, k.request);
  }

  lemma Assoc4(a: string, b: string, c: string, d: string)
    ensures a + ":" + b + ":" + c + ":" + d == a + ":" + (b + ":" + (c + ":" + d))
  {
  }

  /** Distinct commits and requests never share a row. */
  lemma {:induction false} DedupKeyIsInjective(a: Key, b: Key)
    requires Real(a) && Real(b) && DedupKey(a) == DedupKey(b)
    ensures a == b
  {
    KeyIsJoined(a);
    KeyIsJoined(b);
    DecHasNoColon(a.pr);
    DecHasNoColon(b.pr);
    JoinedIsInjective(KeyParts(a), KeyParts(b));
    assert KeyParts(a)[0] == a.repo && KeyParts(a)[1] == T.Dec(a.pr) && KeyParts(a)[2] == a.head
      && KeyParts(a)[3] == a.request;
    assert KeyParts(b)[0] == b.repo && KeyParts(b)[1] == T.Dec(b.pr) && KeyParts(b)[2] == b.head
      && KeyParts(b)[3] == b.request;
    DecIsInjective(a.pr, b.pr);
  }

  function KindName(k: PostKind): string {
    match k
    case ReviewPost => "review"
    case CiRedNote => "ci-red"
    case ApprovedNote => "approved"
    case ApprovedRedNote => "approved-red"
  }

  predicate RealNotice(n: Notice) {
    match n
    case Posted(_, repo, pr, _) => NoColon(repo) && pr >= 0
    case RunCi(repo, pr, _) => NoColon(repo) && pr >= 0
    case HoldNote(k) => Real(k)
    case ThreadSettled(repo, pr, comment, _) => NoColon(repo) && pr >= 0 && comment >= 0
    case Merged(repo, pr) => NoColon(repo) && pr >= 0
    case NoMap(_) => true
    case DismissFailed(repo, pr) => NoColon(repo) && pr >= 0
    case BudgetNote(_) => true
  }

  /** The parts of a notice's key, the kind of notice first. */
  function NoticeParts(n: Notice): seq<string>
    requires RealNotice(n)
  {
    match n
    case Posted(kind, repo, pr, head) => ["posted", KindName(kind), repo, T.Dec(pr), head]
    case RunCi(repo, pr, head) => ["run-ci", repo, T.Dec(pr), head]
    case HoldNote(k) => ["hold", k.repo, T.Dec(k.pr), k.head, k.request]
    case ThreadSettled(repo, pr, comment, replies) => ["thread", repo, T.Dec(pr), T.Dec(comment), T.Dec(replies)]
    case Merged(repo, pr) => ["merged", repo, T.Dec(pr)]
    case NoMap(author) => ["nomap", author]
    case DismissFailed(repo, pr) => ["dismiss", repo, T.Dec(pr)]
    case BudgetNote(what) => ["budget", what]
  }

  function NoticeKey(n: Notice): string
    requires RealNotice(n)
  {
    Joined(NoticeParts(n))
  }

  lemma {:induction false} PartsAreClean(n: Notice)
    requires RealNotice(n)
    ensures Clean(NoticeParts(n)) && |NoticeParts(n)| > 1
  {
    match n {
      case Posted(kind, repo, pr, head) => DecHasNoColon(pr);
      case RunCi(repo, pr, head) => DecHasNoColon(pr);
      case HoldNote(k) => DecHasNoColon(k.pr);
      case ThreadSettled(repo, pr, comment, replies) =>
        DecHasNoColon(pr);
        DecHasNoColon(comment);
      case _ =>
    }
  }

  function KindRank(n: Notice): nat {
    match n
    case Posted(_, _, _, _) => 0
    case RunCi(_, _, _) => 1
    case HoldNote(_) => 2
    case ThreadSettled(_, _, _, _) => 3
    case Merged(_, _) => 4
    case NoMap(_) => 5
    case DismissFailed(_, _) => 6
    case BudgetNote(_) => 7
  }

  /** The kind of a notice can be read off its first segment. */
  lemma {:induction false} SameHeadSameKind(a: Notice, b: Notice)
    requires RealNotice(a) && RealNotice(b) && NoticeParts(a)[0] == NoticeParts(b)[0]
    ensures KindRank(a) == KindRank(b)
  {
    var names := ["posted", "run-ci", "hold", "thread", "merged", "nomap", "dismiss", "budget"];
    NamesDiffer(names);
    assert NoticeParts(a)[0] == names[KindRank(a)] && NoticeParts(b)[0] == names[KindRank(b)];
  }

  lemma NamesDiffer(names: seq<string>)
    requires names == ["posted", "run-ci", "hold", "thread", "merged", "nomap", "dismiss", "budget"]
    ensures forall i, j :: 0 <= i < |names| && 0 <= j < |names| && names[i] == names[j] ==> i == j
  {
    assert |names[0]| == 6 && |names[1]| == 6 && |names[2]| == 4 && |names[3]| == 6;
    assert |names[4]| == 6 && |names[5]| == 5 && |names[6]| == 7 && |names[7]| == 6;
    assert names[0][0] == 'p' && names[1][0] == 'r' && names[3][0] == 't' && names[4][0] == 'm' && names[7][0] == 'b';
  }

  lemma {:induction false} SameParts(a: Notice, b: Notice)
    requires RealNotice(a) && RealNotice(b) && KindRank(a) == KindRank(b) && NoticeParts(a) == NoticeParts(b)
    ensures a == b
  {
    var p, q := NoticeParts(a), NoticeParts(b);
    assert forall i :: 0 <= i < |p| ==> p[i] == q[i];
    match a {
      case Posted(kind, repo, pr, head) =>
        assert p[1] == q[1] && p[2] == q[2] && p[3] == q[3] && p[4] == q[4];
        DecIsInjective(pr, b.pr);
        KindNamesDiffer(kind, b.kind);
      case RunCi(repo, pr, head) =>
        assert p[1] == q[1] && p[2] == q[2] && p[3] == q[3];
        DecIsInjective(pr, b.pr);
      case HoldNote(k) =>
        assert p[1] == q[1] && p[2] == q[2] && p[3] == q[3] && p[4] == q[4];
        DecIsInjective(k.pr, b.key.pr);
      case ThreadSettled(repo, pr, comment, replies) =>
        assert p[1] == q[1] && p[2] == q[2] && p[3] == q[3] && p[4] == q[4];
        DecIsInjective(pr, b.pr);
        DecIsInjective(comment, b.comment);
        DecIsInjective(replies, b.replies);
      case Merged(repo, pr) =>
        assert p[1] == q[1] && p[2] == q[2];
        DecIsInjective(pr, b.pr);
      case NoMap(author) => assert p[1] == q[1];
      case DismissFailed(repo, pr) =>
        assert p[1] == q[1] && p[2] == q[2];
        DecIsInjective(pr, b.pr);
      case BudgetNote(what) => assert p[1] == q[1];
    }
  }

  lemma KindNamesDiffer(a: PostKind, b: PostKind)
    requires KindName(a) == KindName(b)
    ensures a == b
  {
    assert |KindName(a)| == |KindName(b)| && KindName(a)[0] == KindName(b)[0];
  }

  lemma {:induction false} SameKindSameLength(a: Notice, b: Notice)
    requires RealNotice(a) && RealNotice(b) && KindRank(a) == KindRank(b)
    ensures |NoticeParts(a)| == |NoticeParts(b)|
  {
  }

  /** No two notices share a key: a hold is never taken for a post, nor one commit's note
      for another's, nor a thread at one reply count for the same thread at the next. */
  lemma {:induction false} NoticeKeyIsInjective(a: Notice, b: Notice)
    requires RealNotice(a) && RealNotice(b) && NoticeKey(a) == NoticeKey(b)
    ensures a == b
  {
    PartsAreClean(a);
    PartsAreClean(b);
    if NoticeParts(a)[0] != NoticeParts(b)[0] {
      HeadDiffers(NoticeParts(a), NoticeParts(b));
    }
    SameHeadSameKind(a, b);
    SameKindSameLength(a, b);
    JoinedIsInjective(NoticeParts(a), NoticeParts(b));
    SameParts(a, b);
  }
}
