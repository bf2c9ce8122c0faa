/** The bounded download of one remote file through a private staging file
    (scripts/capture_real_gpu_over_ssh.py:2366-2525). */
module BoundedDownload {
  import opened Wrappers

  type Bytes = seq<bv8>
  type Digest = string

  const MAX_ARCHIVE: nat := 268_435_456

  datatype Channel = Stdout | Stderr

  /** One readiness event: the bytes read from a channel (none: the channel ended), or the
      deadline passing before anything is ready. */
  datatype Event = Ready(channel: Channel, chunk: Bytes) | Late

  /** A remote process as seen locally: its events, and its exit code unless it outlives the deadline. */
  datatype Remote = Remote(events: seq<Event>, exit: Option<int>)

  datatype Limits = Limits(minimum: int, maximum: int, timeout: int, expected: Option<Digest>)

  predicate Valid(limits: Limits) {
    && 1 <= limits.minimum <= limits.maximum <= MAX_ARCHIVE
    && limits.timeout >= 1
    && (limits.expected.Some? ==> DigestShape(limits.expected.value))
  }

  predicate DigestShape(d: Digest) {
    && |d| == 71 && d[..7] == "sha256:"
    && forall i :: 7 <= i < 71 ==> '0' <= d[i] <= '9' || 'a' <= d[i] <= 'f'
  }

  // ---- What the process sent ------------------------------------------------------------

  predicate Ended(events: seq<Event>, channel: Channel) {
    exists i :: 0 <= i < |events| && events[i] == Ready(channel, [])
  }

  /** Everything sent on stdout until both channels end. */
  function Sent(events: seq<Event>): Bytes {
    if events == [] then []
    else Sent(events[..|events| - 1]) + match events[|events| - 1]
      case Ready(Stdout, chunk) => chunk
      case _ => []
  }

  /** The select loop consumes events[..n]: both channels end, at event n - 1 for the last
      of them, and the deadline does not pass before. */
  ghost predicate Drained(events: seq<Event>, n: nat) {
    && n <= |events|
    && Ended(events[..n], Stdout) && Ended(events[..n], Stderr)
    && (forall i :: 0 <= i < n ==> events[i] != Late)
    && (forall m :: 0 <= m < n ==> !(Ended(events[..m], Stdout) && Ended(events[..m], Stderr)))
  }

  /** The loop's fate is settled by the events alone. */
  lemma DrainedOnce(events: seq<Event>, n: nat, m: nat)
    requires Drained(events, n) && Drained(events, m)
    ensures n == m
  {
  }

  lemma {:induction false} SentGrows(events: seq<Event>, n: nat)
    requires n <= |events|
    ensures Sent(events[..n]) <= Sent(events)
    decreases |events|
  {
    if n == |events| {
      assert events[..n] == events;
    } else {
      SentGrows(events[..|events| - 1], n);
      assert events[..|events| - 1][..n] == events[..n];
    }
  }

  lemma OneMore(events: seq<Event>, n: nat)
    requires n < |events|
    ensures Sent(events[..n + 1]) == Sent(events[..n]) + if events[n].Ready? && events[n].channel == Stdout then events[n].chunk else []
    ensures forall c :: Ended(events[..n + 1], c) <==> Ended(events[..n], c) || events[n] == Ready(c, [])
  {
    var more, less := events[..n + 1], events[..n];
    assert more[..n] == less && more[n] == events[n];
    assert forall i :: 0 <= i < n ==> more[i] == less[i];
  }

  lemma NoneYet(events: seq<Event>)
    ensures Sent(events[..0]) == [] && !Ended(events[..0], Stdout) && !Ended(events[..0], Stderr)
  {
  }

  /** What may be published for this remote process. */
  ghost predicate Deliverable(remote: Remote, limits: Limits, hash: Bytes -> Digest, content: Bytes) {
    && (exists n: nat :: Drained(remote.events, n) && content == Sent(remote.events[..n]))
    && remote.exit == Some(0)
    && limits.minimum <= |content| <= limits.maximum
    && (limits.expected.Some? ==> hash(content) == limits.expected.value)
  }

  lemma DeliverableIs(remote: Remote, limits: Limits, hash: Bytes -> Digest, content: Bytes, n: nat)
    requires Drained(remote.events, n) && Deliverable(remote, limits, hash, content)
    ensures content == Sent(remote.events[..n])
  {
    var m: nat :| Drained(remote.events, m) && content == Sent(remote.events[..m]);
    DrainedOnce(remote.events, n, m);
  }

  lemma NotYetDrained(remote: Remote, limits: Limits, hash: Bytes -> Digest, n: nat)
    requires n <= |remote.events| && forall k :: 0 <= k <= n ==> !Drained(remote.events, k)
    requires n == |remote.events| || remote.events[n] == Late || |Sent(remote.events[..n + 1])| > limits.maximum
    ensures forall content :: !Deliverable(remote, limits, hash, content)
  {
    forall m: nat | Drained(remote.events, m) ensures m > n && |Sent(remote.events[..m])| > limits.maximum {
      SentGrows(remote.events[..m], n + 1);
      assert remote.events[..m][..n + 1] == remote.events[..n + 1];
    }
  }

  lemma Appended(before: Bytes, chunk: Bytes, n: nat, written: nat)
    requires n + written <= |chunk|
    ensures before + chunk[..n] + chunk[n..][..written] == before + chunk[..n + written]
    ensures chunk[n..][written..] == chunk[n + written..]
  {
  }

  // ---- Disk -------------------------------------------------------------------------------

  class Store {
    const fails: nat -> bool
    const moves: nat -> nat
    var tick: nat
    var faulted: bool
    var staging: Bytes
    var destination: Option<Bytes>

    constructor (fails: nat -> bool, moves: nat -> nat, destination: Option<Bytes>)
      ensures this.destination == destination && !faulted
    {
      this.fails, this.moves, this.destination := fails, moves, destination;
      tick, faulted, staging := 0, false, [];
    }

    method Attempt() returns (ok: bool)
      modifies this`tick, this`faulted
      ensures faulted == (old(faulted) || !ok)
    {
      ok := !fails(tick);
      faulted := faulted || !ok;
      tick := tick + 1;
    }

    method Stage() returns (ok: bool)
      modifies this`tick, this`faulted, this`staging
      ensures staging == [] && faulted == (old(faulted) || !ok)
    {
      ok := Attempt();
      staging := [];
    }

    /** `os.write` to the staging file: some prefix of the view arrives. */
    method Write(view: Bytes) returns (written: nat)
      requires view != []
      modifies this`tick, this`faulted, this`staging
      ensures written <= |view| && staging == old(staging) + view[..written]
      ensures faulted == (old(faulted) || written == 0)
    {
      var ok := Attempt();
      written := if ok then moves(tick) else 0;
      if written > |view| { written := |view|; }
      faulted := faulted || written == 0;
      staging := staging + view[..written];
    }

    method WriteAll(chunk: Bytes) returns (ok: bool)
      modifies this`tick, this`faulted, this`staging
      ensures ok ==> staging == old(staging) + chunk && faulted == old(faulted)
      ensures !ok ==> faulted
      ensures |staging| <= |old(staging)| + |chunk|
    {
      var view := chunk;
      ghost var n: nat := 0;
      while view != []
        invariant n <= |chunk| && view == chunk[n..]
        invariant staging == old(staging) + chunk[..n] && faulted == old(faulted)
        decreases |view|
      {
        var written := Write(view);
        if written == 0 { return false; }
        Appended(old(staging), chunk, n, written);
        view, n := view[written..], n + written;
      }
      assert chunk[..n] == chunk;
      ok := true;
    }

    method Publish() returns (ok: bool)
      modifies this`tick, this`faulted, this`destination
      ensures staging == old(staging)
      ensures ok ==> old(destination) == None && destination == Some(staging) && faulted == old(faulted)
      ensures !ok ==> destination == old(destination) && (faulted || destination != None)
    {
      ok := Attempt();
      if ok && destination != None { ok := false; }
      if ok { destination := Some(staging); }
    }
  }

  /** `_download_remote_file`: on success the destination is exactly the stdout stream; what
      is written, counted and hashed agree throughout and stay within the maximum; nothing
      but a failing system call, a used destination or the remote process prevents it.
      `published` tells failures before the publication, which leave the destination alone,
      from a failing look at the published file, which leaves it complete. */
  method Download(store: Store, remote: Remote, limits: Limits, hash: Bytes -> Digest)
    returns (result: Option<(nat, Digest)>, ghost published: bool)
    requires !store.faulted
    modifies store
    ensures published ==>
      && Valid(limits) && old(store.destination) == None && store.destination.Some?
      && Deliverable(remote, limits, hash, store.destination.value)
    ensures published ==>
      && 1 <= limits.minimum <= |store.destination.value| <= limits.maximum <= 268_435_456
      && (limits.expected.Some? ==> |limits.expected.value| == 71 && limits.expected.value[..7] == "sha256:")
    ensures !published ==> store.destination == old(store.destination)
    ensures result.Some? ==>
      published && result.value == (|store.destination.value|, hash(store.destination.value))
    ensures result.None? && published ==> store.faulted
    ensures result.None? && !store.faulted ==>
      !Valid(limits) || store.destination != None || forall content :: !Deliverable(remote, limits, hash, content)
    ensures Valid(limits) && old(store.destination) == None ==> |store.staging| <= limits.maximum
  {
    hide Sent, Ended, Drained, Deliverable;
    result, published := None, false;
    if !Valid(limits) || store.destination != None { return; }
    var ok := store.Stage();
    if !ok { return; }
    var drained: bool, received: nat, hashed: Bytes;
    ghost var n: nat;
    drained, received, hashed, n := Drain(store, remote, limits, hash);
    if !drained || remote.exit != Some(0) || received < limits.minimum {
      if drained && !store.faulted { Refused(remote, limits, hash, n); }
      return;
    }
    var actual := hash(hashed);
    if limits.expected.Some? && actual != limits.expected.value {
      Refused(remote, limits, hash, n);
      return;
    }
    Granted(remote, limits, hash, n);
    ok := store.Attempt();
    if !ok { return; }
    ok := store.Publish();
    if !ok { return; }
    published := true;
    ok := store.Attempt();
    if ok { result := Some((received, actual)); }
  }

  lemma Refused(remote: Remote, limits: Limits, hash: Bytes -> Digest, n: nat)
    requires Drained(remote.events, n)
    requires var content := Sent(remote.events[..n]);
      || remote.exit != Some(0) || |content| < limits.minimum
      || (limits.expected.Some? && hash(content) != limits.expected.value)
    ensures forall content :: !Deliverable(remote, limits, hash, content)
  {
    forall content ensures !Deliverable(remote, limits, hash, content) {
      if Deliverable(remote, limits, hash, content) { DeliverableIs(remote, limits, hash, content, n); }
    }
  }

  lemma Granted(remote: Remote, limits: Limits, hash: Bytes -> Digest, n: nat)
    requires Drained(remote.events, n) && remote.exit == Some(0)
    requires var content := Sent(remote.events[..n]);
      && limits.minimum <= |content| <= limits.maximum
      && (limits.expected.Some? ==> hash(content) == limits.expected.value)
    ensures Deliverable(remote, limits, hash, Sent(remote.events[..n]))
  {
  }

  /** The select loop. */
  method Drain(store: Store, remote: Remote, limits: Limits, hash: Bytes -> Digest)
    returns (ok: bool, received: nat, hashed: Bytes, ghost n: nat)
    requires Valid(limits) && store.staging == [] && !store.faulted
    modifies store`tick, store`faulted, store`staging
    ensures |store.staging| <= limits.maximum
    ensures ok ==> !store.faulted && Drained(remote.events, n) && received <= limits.maximum
    ensures ok ==> store.staging == hashed == Sent(remote.events[..n]) && received == |hashed|
    ensures !ok && !store.faulted ==> forall content :: !Deliverable(remote, limits, hash, content)
  {
    hide Sent, Ended, Deliverable;
    var events := remote.events;
    var stdout, stderr := true, true;
    var diagnostics: Bytes := [];
    var i: nat := 0;
    ok, received, hashed, n := false, 0, [], 0;
    NoneYet(events);
    while stdout || stderr
      invariant i <= |events| && !store.faulted
      invariant store.staging == hashed == Sent(events[..i]) && received == |hashed| <= limits.maximum
      invariant stdout == !Ended(events[..i], Stdout) && stderr == !Ended(events[..i], Stderr)
      invariant forall k :: 0 <= k < i ==> events[k] != Late
      invariant forall k :: 0 <= k < i ==> !(Ended(events[..k], Stdout) && Ended(events[..k], Stderr))
      invariant |diagnostics| <= 8_192
      decreases |events| - i
    {
      if i == |events| || events[i] == Late {
        NotYetDrained(remote, limits, hash, i);
        return;
      }
      var event := events[i];
      OneMore(events, i);
      if event.chunk == [] {
        if event.channel == Stdout { stdout := false; } else { stderr := false; }
      } else if event.channel == Stderr {
        var room := 8_192 - |diagnostics|;
        diagnostics := diagnostics + if |event.chunk| <= room then event.chunk else event.chunk[..room];
      } else {
        if received + |event.chunk| > limits.maximum {
          NotYetDrained(remote, limits, hash, i);
          return;
        }
        var written := store.WriteAll(event.chunk);
        if !written { return; }
        received, hashed := received + |event.chunk|, hashed + event.chunk;
      }
      i := i + 1;
    }
    ok, n := true, i;
  }
}
