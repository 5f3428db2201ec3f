/** `userauth_agent`: offer the identities of the ssh agent one by one. */
module Agent {
  import opened Options

  type Identity = string

  datatype Error = CannotInitialize | CannotList | CannotGet | NoneAccepted

  /** An agent and a server. `init` to `list` are the results of the calls before the
      loop. After its last identity `get_identity` answers 1 and leaves its output
      alone, so that identity is offered again (NULL if there was none); call number
      `failsAt` of it fails instead. `accepts(i, id)`: the i-th offer, `id`, is taken. */
  datatype Agent = Agent(init: bool, connect: int, list: int, ids: seq<Identity>,
                         failsAt: Option<nat>, accepts: (nat, Option<Identity>) -> bool)

  /** What is on offer, in order, when nothing is accepted: the last one comes twice. */
  function Offers(ids: seq<Identity>): (r: seq<Option<Identity>>)
    ensures |r| == |ids| + 1 && forall i :: 0 <= i < |ids| ==> r[i] == Some(ids[i])
    ensures r[|ids|] == if ids == [] then None else Some(ids[|ids| - 1])
  {
    seq(|ids| + 1, i requires 0 <= i <= |ids| =>
      if i < |ids| then Some(ids[i]) else if ids == [] then None else Some(ids[|ids| - 1]))
  }

  predicate Rejected(a: Agent, offered: seq<Option<Identity>>) {
    forall i :: 0 <= i < |offered| ==> !a.accepts(i, offered[i])
  }

  /** What the loop may leave behind: the offers made and the exception set. */
  ghost predicate Outcome(a: Agent, offered: seq<Option<Identity>>, error: Option<Error>) {
    && offered <= Offers(a.ids)
    && (a.failsAt.Some? ==> |offered| <= a.failsAt.value)
    && match error
       case None =>
         && offered != [] && a.accepts(|offered| - 1, offered[|offered| - 1])
         && Rejected(a, offered[..|offered| - 1])
       case Some(CannotGet) => Rejected(a, offered) && a.failsAt == Some(|offered|) && |offered| <= |a.ids|
       case Some(NoneAccepted) => Rejected(a, offered) && |offered| == |a.ids| + 1
       case _ => false
  }

  /** `userauth_agent`. An agent that cannot be connected to is not an error. */
  method Authenticate(a: Agent) returns (offered: seq<Option<Identity>>, error: Option<Error>)
    ensures !a.init ==> offered == [] && error == Some(CannotInitialize)
    ensures a.init && a.connect != 0 ==> offered == [] && error == None
    ensures a.init && a.connect == 0 && a.list != 0 ==> offered == [] && error == Some(CannotList)
    ensures a.init && a.connect == 0 && a.list == 0 ==> Outcome(a, offered, error)
    ensures |offered| <= |a.ids| + 1
    ensures forall i :: 0 <= i < |offered| ==>
      offered[i] == if i < |a.ids| then Some(a.ids[i]) else if a.ids == [] then None else Some(a.ids[|a.ids| - 1])
  {
    offered, error := [], None;
    if !a.init {
      return [], Some(CannotInitialize);
    }
    if a.connect == 0 {
      if a.list == 0 {
        var rc, store := 0, None;
        while rc == 0
          invariant rc in {0, 1} && offered <= Offers(a.ids) && Rejected(a, offered)
          invariant a.failsAt.Some? ==> |offered| <= a.failsAt.value
          invariant rc == 0 ==> |offered| <= |a.ids| && error == None
          invariant rc != 0 ==> |offered| == |a.ids| + 1 && error == Some(NoneAccepted)
          invariant rc == 0 ==> store == if offered == [] then None else offered[|offered| - 1]
          decreases |a.ids| + 1 - |offered|
        {
          var i := |offered|;
          var answer := GetIdentity(a, i, store);
          rc, store := answer.0, answer.1;
          if rc < 0 {
            error := Some(CannotGet);
            break;
          }
          assert store == Offers(a.ids)[i];
          assert offered + [store] == Offers(a.ids)[..i + 1];
          offered := offered + [store];
          if a.accepts(i, store) {
            break;
          }
          if rc == 1 {
            error := Some(NoneAccepted);
          }
        }
      } else {
        error := Some(CannotList);
      }
    }
  }

  /** libssh2_agent_get_identity, called for the i-th time. */
  function GetIdentity(a: Agent, i: nat, store: Option<Identity>): (int, Option<Identity>) {
    if a.failsAt == Some(i) then (-1, store)
    else if i < |a.ids| then (0, Some(a.ids[i]))
    else (1, store)
  }

  /** The outcome is determined by the agent and the server. */
  lemma OutcomeUnique(a: Agent, o1: seq<Option<Identity>>, e1: Option<Error>, o2: seq<Option<Identity>>,
    e2: Option<Error>)
    requires Outcome(a, o1, e1) && Outcome(a, o2, e2)
    ensures o1 == o2 && e1 == e2
  {
  }

  /** An exact condition on the calls: some offer that is reached before
      `get_identity` fails is accepted. */
  lemma AcceptedIff(a: Agent, offered: seq<Option<Identity>>, error: Option<Error>)
    requires Outcome(a, offered, error)
    ensures error == None <==>
      exists i: nat :: i <= |a.ids| && (a.failsAt.Some? ==> i < a.failsAt.value) && a.accepts(i, Offers(a.ids)[i])
  {
    var offers := Offers(a.ids);
    if error == None {
      assert a.accepts(|offered| - 1, offers[|offered| - 1]);
    } else {
      assert forall i :: 0 <= i < |offered| ==> offered[i] == offers[i];
      assert forall i: nat | i <= |a.ids| && a.accepts(i, offers[i]) :: a.failsAt.Some? && a.failsAt.value <= i;
    }
  }

  /** The i-th offer is rejected, for all i below `n`. */
  predicate AllRejected(a: Agent, n: nat)
    requires n <= |a.ids| + 1
  {
    forall i :: 0 <= i < n ==> !a.accepts(i, Offers(a.ids)[i])
  }

  /** Each of the two errors, exactly: the call fails that comes after as many
      rejections, or everything is rejected. In both cases as much was offered, else
      as much as up to the first offer that is accepted. */
  lemma ErrorIff(a: Agent, offered: seq<Option<Identity>>, error: Option<Error>)
    requires Outcome(a, offered, error)
    ensures error == Some(CannotGet) <==>
      a.failsAt.Some? && a.failsAt.value <= |a.ids| && AllRejected(a, a.failsAt.value)
    ensures error == Some(NoneAccepted) <==>
      (a.failsAt.Some? ==> a.failsAt.value > |a.ids|) && AllRejected(a, |a.ids| + 1)
    ensures error == Some(CannotGet) ==> |offered| == a.failsAt.value
    ensures error == Some(NoneAccepted) ==> |offered| == |a.ids| + 1
    ensures error == None ==>
      offered != [] && AllRejected(a, |offered| - 1) && a.accepts(|offered| - 1, Offers(a.ids)[|offered| - 1])
  {
    var offers := Offers(a.ids);
    assert forall i :: 0 <= i < |offered| ==> offered[i] == offers[i];
    if error == None {
      assert a.accepts(|offered| - 1, offers[|offered| - 1]);
      assert forall i :: 0 <= i < |offered| - 1 ==> offered[..|offered| - 1][i] == offers[i];
    }
  }

  /** When the verdict on an identity does not change and no call fails, an identity
      is accepted exactly when some identity is acceptable; it is the first such, and
      none after it is offered. */
  lemma FirstAccepted(a: Agent, ok: Identity -> bool, offered: seq<Option<Identity>>, error: Option<Error>)
    requires Outcome(a, offered, error) && a.ids != [] && a.failsAt == None
    requires forall i, id :: a.accepts(i, Some(id)) == ok(id)
    ensures |offered| <= |a.ids| + 1
    ensures error == None <==> exists id :: id in a.ids && ok(id)
    ensures error == None ==>
      && |offered| <= |a.ids| && ok(a.ids[|offered| - 1])
      && forall i :: 0 <= i < |offered| - 1 ==> !ok(a.ids[i])
    ensures error != None ==> error == Some(NoneAccepted)
  {
  }
}
