/**
 A refreshable UI function as its tests observe it.

 Each call site is identified by a key: the bound instance when the refreshable
 is a method, one fixed key when it is a free function. The model keeps, per
 call site, the text that is displayed there, and counts how many times the body
 has run. The body is a function of the call site, of the data it reads when it
 runs, and of the run count (the tests put that count in a label).

 A synchronous refresh clears and rebuilds a call site before it returns, so the
 two steps are one state change. An asynchronous refresh is two steps: the body
 runs into a buffer while the old text stays on display, then the buffered text
 replaces the old text in one step.
 */
module Refreshables {

  class Refreshable<K(==), D> {
    /** What one run of the body displays at a call site, given the data it reads
        and the number of body runs so far, this one included. */
    const body: (K, D, nat) -> string
    /** The text displayed at each call site. */
    var content: map<K, string>
    /** Output of asynchronous runs that has not been attached yet. */
    var buffer: map<K, string>
    /** How many times the body has run. */
    var runs: nat

    /** Only call sites that exist can have output waiting. */
    ghost predicate Valid()
      reads this
    {
      buffer.Keys <= content.Keys
    }

    constructor (body: (K, D, nat) -> string)
      ensures Valid()
      ensures this.body == body
      ensures content == map[] && buffer == map[] && runs == 0
    {
      this.body := body;
      content := map[];
      buffer := map[];
      runs := 0;
    }

    /** Calling the refreshable at a call site runs the body once and displays
        its output there; no other call site changes. Output of an earlier
        asynchronous run for that site is outdated and dropped. */
    method Call(key: K, data: D)
      requires Valid()
      modifies this
      ensures Valid()
      ensures runs == old(runs) + 1
      ensures content == old(content)[key := body(key, data, runs)]
      ensures buffer == old(buffer) - {key}
    {
      runs := runs + 1;
      content := content[key := body(key, data, runs)];
      buffer := buffer - {key};
    }

    /** Refreshing one call site re-runs the body there once and replaces what it
        displays with the new output; every other call site keeps its text. Output
        of an earlier asynchronous run for that site is outdated and dropped, so it
        can never overwrite the newer text. With no such call site nothing happens. */
    method Refresh(key: K, data: D)
      requires Valid()
      modifies this
      ensures Valid()
      ensures key in old(content) ==> runs == old(runs) + 1 && content == old(content)[key := body(key, data, runs)]
      ensures key !in old(content) ==> runs == old(runs) && content == old(content)
      ensures buffer == old(buffer) - {key}
    {
      if key in content {
        runs := runs + 1;
        content := content[key := body(key, data, runs)];
        buffer := buffer - {key};
      }
    }

    /** First step of an asynchronous refresh: the body runs to completion into
        the buffer. Nothing displayed changes, so the call site is never seen
        cleared. */
    method RefreshAsync(key: K, data: D)
      requires Valid()
      modifies this
      ensures Valid()
      ensures content == old(content)
      ensures key in old(content) ==> runs == old(runs) + 1 && buffer == old(buffer)[key := body(key, data, runs)]
      ensures key !in old(content) ==> runs == old(runs) && buffer == old(buffer)
    {
      if key in content {
        runs := runs + 1;
        buffer := buffer[key := body(key, data, runs)];
      }
    }

    /** Second step of an asynchronous refresh: the finished output replaces the
        old text in one step. The body does not run again. */
    method Attach(key: K)
      requires Valid()
      modifies this
      ensures Valid()
      ensures runs == old(runs)
      ensures key in old(buffer) ==> content == old(content)[key := old(buffer)[key]] && buffer == old(buffer) - {key}
      ensures key !in old(buffer) ==> content == old(content) && buffer == old(buffer)
    {
      if key in buffer {
        content := content[key := buffer[key]];
        buffer := buffer - {key};
      }
    }
  }

  /** An asynchronous refresh, once attached, ends where a synchronous refresh of
      the same call site with the same data ends: the same text everywhere, the
      same run count and nothing left buffered for that site. */
  method AsyncThenAttachIsRefresh<K(==), D>(p: Refreshable<K, D>, q: Refreshable<K, D>, key: K, data: D)
    requires p != q && p.Valid() && q.Valid()
    requires p.body == q.body && p.content == q.content && p.buffer == q.buffer && p.runs == q.runs
    modifies p, q
    ensures p.Valid() && q.Valid()
    ensures p.content == q.content && p.buffer == q.buffer && p.runs == q.runs
  {
    p.RefreshAsync(key, data);
    p.Attach(key);
    q.Refresh(key, data);
  }
}
