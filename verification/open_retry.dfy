/** Opening a session from the edge: draw a connector over NATS, look up its link,
    open the session there; retry while the tunnel is down.
    internal/edge/data.go */
module OpenRetry {
  import opened Frames
  import opened Channel
  import opened Mux
  import opened Sessions

  /** What one attempt meets before it reaches the link: a failed request or an
      unusable reply; a rejection, for a tunnel that is down or for another reason;
      an acceptance, with the link the registry holds for that connector, if any. */
  datatype Attempt =
    | Failed
    | Rejected(tunnelDown: bool)
    | Accepted(link: LinkObject?)

  datatype Result = Opened(session: Session, link: LinkObject) | Unavailable | Refused

  method AttemptOpen(id: Id, open: Frame, a: Attempt) returns (r: Result, ghost opens: nat)
    requires open.Open? && (a.Accepted? && a.link != null ==> a.link.Valid())
    modifies if a.Accepted? && a.link != null then {a.link} else {}
    ensures a.Accepted? && a.link != null ==> a.link.Valid() && opens == 1 && !r.Unavailable?
    ensures !(a.Accepted? && a.link != null) ==> opens == 0 && !r.Opened?
    ensures r.Opened? ==> a.Accepted? && a.link == r.link && Holds(r.link, id, r.session)
    ensures r.Opened? ==> a.Accepted? && a.link != null && id !in old(a.link.sessions)
    ensures a.Accepted? && a.link != null && !r.Opened? ==> a.link.sessions == old(a.link.sessions)
    ensures r.Unavailable? <==> (a.Rejected? && a.tunnelDown) || (a.Accepted? && a.link == null)
    ensures a.Accepted? && a.link != null ==>
      (r.Opened? <==> id !in old(a.link.sessions) && old(a.link.Takes(id, open)))
    ensures a.Accepted? && a.link != null ==> a.link.broken == old(a.link.broken)
  {
    opens := 0;
    match a {
      case Failed =>
        r := Result.Refused;
      case Rejected(tunnelDown) =>
        r := if tunnelDown then Unavailable else Result.Refused;
      case Accepted(link) =>
        if link == null {
          return Unavailable, 0;
        }
        opens := 1;
        var s := link.OpenSession(id, open);
        r := if s == null then Result.Refused else Opened(s, link);
    }
  }

  predicate Holds(link: LinkObject, id: Id, s: Session)
    reads link
  {
    id in link.sessions && link.sessions[id] == s
  }

  ghost predicate LinksValid(env: seq<Attempt>)
    reads set a | a in env && a.Accepted? && a.link != null :: a.link
    reads set a, s | a in env && a.Accepted? && a.link != null && s in a.link.ever :: s
  {
    forall a :: a in env && a.Accepted? && a.link != null ==> a.link.Valid()
  }

  /** An attempt that is tried again: the tunnel is down, or the registry holds no link.
      A link that fails once it has been drawn is not among them. */
  predicate Transient(a: Attempt) {
    (a.Rejected? && a.tunnelDown) || (a.Accepted? && a.link == null)
  }

  /** The first attempt of env that decides the call. */
  ghost predicate Decides(env: seq<Attempt>, k: nat) {
    k < |env| && !Transient(env[k]) && forall j :: 0 <= j < k ==> Transient(env[j])
  }

  /** The loop; env is what its attempts meet, up to the deadline. Link.Open is called
      at most once. Success: the session is registered on the link the registry held
      for the accepting connector. Failure: the call has registered it nowhere. */
  method OpenDataSession(id: Id, open: Frame, env: seq<Attempt>) returns (r: Result, ghost opens: nat)
    requires open.Open? && env != [] && LinksValid(env)
    modifies set a | a in env && a.Accepted? && a.link != null :: a.link
    ensures r.Unavailable? <==> forall i :: 0 <= i < |env| ==> Transient(env[i])
    ensures !r.Unavailable? ==>
      exists k: nat :: Decides(env, k)
        && (opens == 1 <==> env[k].Accepted?)
        && (r.Opened? <==> env[k].Accepted? && id !in old(env[k].link.sessions) && old(env[k].link.Takes(id, open)))
    ensures opens <= 1 && (r.Opened? ==> opens == 1)
    ensures r.Opened? ==> Accepted(r.link) in env && Holds(r.link, id, r.session)
    ensures r.Opened? ==>
      forall a :: a in env && a.Accepted? && a.link == r.link ==> a.link != null && id !in old(a.link.sessions)
    ensures !r.Opened? ==>
      forall a :: a in env && a.Accepted? && a.link != null ==> a.link.sessions == old(a.link.sessions)
  {
    opens := 0;
    r := Unavailable;
    for i := 0 to |env|
      invariant opens == 0 && r.Unavailable?
      invariant forall j :: 0 <= j < i ==> Transient(env[j])
      invariant LinksValid(env)
      invariant forall a :: a in env && a.Accepted? && a.link != null ==> unchanged(a.link)
    {
      r, opens := AttemptOpen(id, open, env[i]);
      if !r.Unavailable? {
        assert Decides(env, i);
        return;
      }
    }
  }
}
