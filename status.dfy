/** Status strings, the colour and label every card derives from a status,
    and counting tasks by status (shared by the dashboard and the profile). */
module Status {
  import opened Values

  const COMPLETED: string := "completed"
  const PENDING: string := "pending"
  const IN_PROGRESS: string := "in-progress"
  const NOT_STARTED: string := "not-started"

  /** The three colour families of the `getStatusColor` switches; the class
      strings differ per component, the choice does not. */
  datatype Tone = Green | Blue | Gray

  /** The switch on a status with a gray default. */
  function ToneOf(status: string): (t: Tone)
    ensures t == Green <==> status == COMPLETED
    ensures t == Blue <==> status == IN_PROGRESS
    ensures t == Gray <==> status != COMPLETED && status != IN_PROGRESS
  {
    if status == COMPLETED then Green
    else if status == IN_PROGRESS then Blue
    else Gray
  }

  /** `getStatusColor(status = 'not-started')` of the project components: the
      default parameter applies only when the status is undefined. */
  function ProjectTone(status: Option<string>): (t: Tone)
    ensures status.None? ==> t == Gray
    ensures status.Some? ==> t == ToneOf(status.value)
  {
    ToneOf(status.GetOr(NOT_STARTED))
  }

  /** `s.replace(from, to)` with a string pattern of one character: only the
      first occurrence is replaced. */
  function ReplaceFirst(s: string, from: char, to: char): (r: string)
    ensures |r| == |s|
  {
    if s == [] then []
    else if s[0] == from then [to] + s[1..]
    else [s[0]] + ReplaceFirst(s[1..], from, to)
  }

  /** Index of the first `c` in `s`, or `|s|` when there is none. */
  function FirstIndex(s: string, c: char): (k: nat)
    ensures k <= |s|
    ensures forall i :: 0 <= i < k ==> s[i] != c
    ensures k < |s| ==> s[k] == c
  {
    if s == [] then 0
    else if s[0] == c then 0
    else 1 + FirstIndex(s[1..], c)
  }

  /** The replacement changes exactly the first occurrence and nothing else. */
  lemma {:induction false} ReplaceFirstAt(s: string, from: char, to: char)
    ensures |ReplaceFirst(s, from, to)| == |s|
    ensures forall i :: 0 <= i < |s| ==>
      ReplaceFirst(s, from, to)[i] == if i == FirstIndex(s, from) then to else s[i]
  {
    if s != [] && s[0] != from {
      ReplaceFirstAt(s[1..], from, to);
      var r := ReplaceFirst(s, from, to);
      forall i | 0 <= i < |s|
        ensures r[i] == if i == FirstIndex(s, from) then to else s[i]
      {
        if i > 0 {
          assert r[i] == ReplaceFirst(s[1..], from, to)[i - 1];
        }
      }
    }
  }

  /** A status without `from` is left as it is. */
  lemma ReplaceFirstAbsent(s: string, from: char, to: char)
    requires from !in s
    ensures ReplaceFirst(s, from, to) == s
  {
    ReplaceFirstAt(s, from, to);
    assert FirstIndex(s, from) == |s|;
  }

  /** The badge text `(status || 'not-started').replace('-', ' ')`. */
  function StatusLabel(status: Option<string>): (r: string)
    ensures |r| == |OrElse(status, NOT_STARTED)|
  {
    ReplaceFirst(OrElse(status, NOT_STARTED), '-', ' ')
  }

  /** A non-empty status without a dash is shown as it is. */
  lemma LabelWithoutDash(status: string)
    requires status != "" && '-' !in status
    ensures StatusLabel(Some(status)) == status
  {
    ReplaceFirstAbsent(status, '-', ' ');
  }

  /** A status whose first dash sits at index `k` is shown with a space
      there and every other character kept. */
  lemma LabelAt(status: string, k: nat)
    requires k < |status| && status[k] == '-' && '-' !in status[..k]
    ensures |StatusLabel(Some(status))| == |status|
    ensures forall i :: 0 <= i < |status| ==>
      StatusLabel(Some(status))[i] == if i == k then ' ' else status[i]
  {
    ReplaceFirstAt(status, '-', ' ');
    assert forall i :: 0 <= i < k ==> status[i] == status[..k][i];
  }

  /** Replacing in `a + [from] + b`, where `a` has no `from`, changes just
      that one character. */
  lemma {:induction false} ReplaceFirstSplit(a: string, b: string, from: char, to: char)
    requires from !in a
    ensures ReplaceFirst(a + [from] + b, from, to) == a + [to] + b
  {
    if a == [] {
      assert a + [from] + b == [from] + b;
    } else {
      assert (a + [from] + b)[1..] == a[1..] + [from] + b;
      ReplaceFirstSplit(a[1..], b, from, to);
      assert a + [to] + b == [a[0]] + (a[1..] + [to] + b);
    }
  }

  /** The label of a missing or empty status is "not started". */
  lemma MissingStatusLabel()
    ensures StatusLabel(None) == "not started"
    ensures StatusLabel(Some("")) == "not started"
  {
    assert NOT_STARTED == "not" + ['-'] + "started";
    ReplaceFirstSplit("not", "started", '-', ' ');
    assert "not" + [' '] + "started" == "not started";
  }

  /** An in-progress status reads "in progress". */
  lemma InProgressLabel()
    ensures StatusLabel(Some(IN_PROGRESS)) == "in progress"
  {
    assert IN_PROGRESS == "in" + ['-'] + "progress";
    ReplaceFirstSplit("in", "progress", '-', ' ');
    assert "in" + [' '] + "progress" == "in progress";
  }

  /** A completed status reads "completed". */
  lemma CompletedLabel()
    ensures StatusLabel(Some(COMPLETED)) == COMPLETED
  {
    assert forall i :: 0 <= i < |COMPLETED| ==> COMPLETED[i] != '-';
    ReplaceFirstAbsent(COMPLETED, '-', ' ');
  }

  /** Number of tasks whose status is `s`; counted from the end so that a loop
      appending one task at a time can keep it as its invariant. */
  function CountStatus(ts: seq<Task>, s: string): (n: nat)
    ensures n <= |ts|
  {
    if ts == [] then 0
    else CountStatus(ts[..|ts| - 1], s) + (if ts[|ts| - 1].status == s then 1 else 0)
  }

  /** Number of tasks whose status is none of the three task statuses. */
  function CountOther(ts: seq<Task>): (n: nat)
    ensures n <= |ts|
  {
    if ts == [] then 0
    else
      var t := ts[|ts| - 1];
      CountOther(ts[..|ts| - 1])
        + (if t.status != COMPLETED && t.status != PENDING && t.status != IN_PROGRESS then 1 else 0)
  }

  /** Number of tasks whose status is not `s` (a `filter` with `!==`). */
  function CountNot(ts: seq<Task>, s: string): (n: nat)
    ensures n <= |ts|
  {
    if ts == [] then 0
    else CountNot(ts[..|ts| - 1], s) + (if ts[|ts| - 1].status != s then 1 else 0)
  }

  lemma {:induction false} CountStatusAppend(a: seq<Task>, b: seq<Task>, s: string)
    ensures CountStatus(a + b, s) == CountStatus(a, s) + CountStatus(b, s)
    decreases |b|
  {
    if b == [] {
      assert a + b == a;
    } else {
      var b' := b[..|b| - 1];
      assert (a + b)[..|a + b| - 1] == a + b';
      CountStatusAppend(a, b', s);
    }
  }

  /** Every task has exactly one of: completed, pending, in-progress, other. */
  lemma {:induction false} CountPartition(ts: seq<Task>)
    ensures CountStatus(ts, COMPLETED) + CountStatus(ts, PENDING)
            + CountStatus(ts, IN_PROGRESS) + CountOther(ts) == |ts|
  {
    if ts != [] {
      CountPartition(ts[..|ts| - 1]);
    }
  }

  /** A status and its complement split the tasks. */
  lemma {:induction false} CountNotComplement(ts: seq<Task>, s: string)
    ensures CountStatus(ts, s) + CountNot(ts, s) == |ts|
  {
    if ts != [] {
      CountNotComplement(ts[..|ts| - 1], s);
    }
  }

  /** The tasks that are not completed are the pending, the in-progress and
      the ones with any other status. */
  lemma {:induction false} CountNotCompleted(ts: seq<Task>)
    ensures CountNot(ts, COMPLETED)
            == CountStatus(ts, PENDING) + CountStatus(ts, IN_PROGRESS) + CountOther(ts)
  {
    if ts != [] {
      CountNotCompleted(ts[..|ts| - 1]);
    }
  }

  /** `xs.slice(0, n)`. */
  function Take<T>(xs: seq<T>, n: nat): (r: seq<T>)
    ensures |r| <= n && |r| <= |xs|
    ensures |r| == if |xs| < n then |xs| else n
    ensures r == xs[..|r|]
  {
    if |xs| <= n then xs else xs[..n]
  }
}
