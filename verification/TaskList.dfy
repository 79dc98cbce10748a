// The scheduler's task list as a value: what scheduleNoLock appends and what a worker picks.

module TaskList {
  import opened Base
  import opened FiberTypes

  /** scheduleNoLock: an empty FiberAndThread is not queued; the second result asks for a tickle. */
  function Scheduled(tasks: seq<Task>, work: Option<Work>, thread: int): (seq<Task>, bool) {
    (match work case None => tasks case Some(w) => tasks + [Task(w, thread)], tasks == [])
  }

  /** The unpinned entries made from a batch. */
  function Wrap(ws: seq<Work>): seq<Task> {
    seq(|ws|, i requires 0 <= i < |ws| => Task(ws[i], -1))
  }

  predicate ForOther(t: Task, thread: int) { t.thread != -1 && t.thread != thread }

  /** A worker may take t: not pinned elsewhere, and not a fiber that is still executing. */
  predicate Eligible(t: Task, thread: int, executing: set<FiberId>) {
    !ForOther(t, thread) && !(t.work.FiberWork? && t.work.fiber in executing)
  }

  /** Index of the first eligible entry, or the length of the list. */
  function FirstEligible(tasks: seq<Task>, thread: int, executing: set<FiberId>): (i: nat)
    ensures i <= |tasks|
    ensures i < |tasks| ==> Eligible(tasks[i], thread, executing)
    ensures forall j :: 0 <= j < i ==> !Eligible(tasks[j], thread, executing)
  {
    if tasks == [] then 0
    else if Eligible(tasks[0], thread, executing) then 0
    else 1 + FirstEligible(tasks[1..], thread, executing)
  }

  function Without<T>(s: seq<T>, i: nat): seq<T>
    requires i < |s|
  {
    s[..i] + s[i+1..]
  }
}
