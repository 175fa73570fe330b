/**
 * The strings that locks and queues are kept under (webhook.py, issue_workspaces.py). No two
 * issues and no two environments share one, for names GitHub allows.
 */
module Keys {
  import opened Wrappers

  /** `thread_key`: what it says of an event without an issue is any other text after the mark. */
  function ThreadKey(repo: string, issue: string): string { repo + ['#'] + issue }

  datatype Place = Staging | Numbered(number: nat)

  /** `env_id`. */
  function EnvId(owner: string, repo: string, place: Place): string {
    owner + ['/'] + Within(repo, place)
  }

  function Within(repo: string, place: Place): string {
    match place case Staging => repo + ['@'] + "staging" case Numbered(n) => repo + ['#'] + Decimal(n)
  }

  lemma {:induction false} SplitOnce(a: string, x: string, c: char, b: string, y: string)
    requires c !in a && c !in b && a + [c] + x == b + [c] + y
    ensures a == b && x == y
  {
    var s, t := a + [c] + x, b + [c] + y;
    if a == "" || b == "" {
      assert s[0] == t[0];
      assert s[1..] == t[1..];
    } else {
      assert s[0] == a[0] && t[0] == b[0];
      assert s[1..] == a[1..] + [c] + x && t[1..] == b[1..] + [c] + y;
      SplitOnce(a[1..], x, c, b[1..], y);
    }
  }

  lemma {:induction false} DecimalsDiffer(m: nat, n: nat)
    requires Decimal(m) == Decimal(n)
    ensures m == n
  {
    var a, b := Decimal(m), Decimal(n);
    assert a[|a| - 1] == '0' + (m % 10) as char && b[|b| - 1] == '0' + (n % 10) as char;
    if m >= 10 && n >= 10 {
      assert a[..|a| - 1] == Decimal(m / 10) && b[..|b| - 1] == Decimal(n / 10);
      DecimalsDiffer(m / 10, n / 10);
    }
  }

  /** Deliveries share a lock exactly when they are of one issue of one repo. */
  lemma ThreadsAreApart(r1: string, i1: string, r2: string, i2: string)
    requires '#' !in r1 && '#' !in r2
    ensures ThreadKey(r1, i1) == ThreadKey(r2, i2) <==> r1 == r2 && i1 == i2
  {
    if ThreadKey(r1, i1) == ThreadKey(r2, i2) { SplitOnce(r1, i1, '#', r2, i2); }
  }

  predicate RepoName(repo: string) { '#' !in repo && '@' !in repo }

  /** Runs share a turn exactly when they are in one environment of one repo. */
  lemma EnvironmentsAreApart(o1: string, r1: string, p1: Place, o2: string, r2: string, p2: Place)
    requires '/' !in o1 && '/' !in o2 && RepoName(r1) && RepoName(r2)
    ensures EnvId(o1, r1, p1) == EnvId(o2, r2, p2) <==> o1 == o2 && r1 == r2 && p1 == p2
  {
    if EnvId(o1, r1, p1) == EnvId(o2, r2, p2) {
      SplitOnce(o1, Within(r1, p1), '/', o2, Within(r2, p2));
      PlacesAreApart(r1, p1, r2, p2);
    }
  }

  lemma PlacesAreApart(r1: string, p1: Place, r2: string, p2: Place)
    requires RepoName(r1) && RepoName(r2) && Within(r1, p1) == Within(r2, p2)
    ensures r1 == r2 && p1 == p2
  {
    match (p1, p2)
    case (Staging, Staging) => SplitOnce(r1, "staging", '@', r2, "staging");
    case (Numbered(m), Numbered(n)) =>
      SplitOnce(r1, Decimal(m), '#', r2, Decimal(n));
      DecimalsDiffer(m, n);
    case (Staging, Numbered(n)) => NoStagingNumber(r1, r2, n);
    case (Numbered(n), Staging) => NoStagingNumber(r2, r1, n);
  }

  /** The staging environment of no repo is written like an issue's. */
  lemma NoStagingNumber(r1: string, r2: string, n: nat)
    requires RepoName(r1) && RepoName(r2)
    ensures r1 + ['@'] + "staging" != r2 + ['#'] + Decimal(n)
  {
    var s, t := r1 + ['@'] + "staging", r2 + ['#'] + Decimal(n);
    assert s[|s| - 1] == 'g' && Digit(t[|t| - 1]);
  }
}
