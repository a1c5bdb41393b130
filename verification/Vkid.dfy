/** Sessions, VK ID token responses, and what one refresh does to a session. */
module Vkid {
  import opened Common

  /** Times are seconds; 0 is the zero time (lifetime unknown). */
  datatype Session = Session(
    userID: int,
    access: string,
    refresh: string,
    idToken: string,
    device: string,
    client: string,
    scope: string,
    expiresAt: int)

  predicate Refreshable(s: Session) {
    s.refresh != "" && s.device != "" && s.client != ""
  }

  predicate Valid(s: Session) { s.access != "" }

  /** The fields of a token response that the program reads. */
  datatype Response = Response(
    access: string,
    refresh: string,
    idToken: string,
    expiresIn: int,
    userID: int,
    scope: string)

  datatype Token = Token(resp: Response, expiresAt: int, device: string, client: string)

  datatype VkidError = NotRefreshable | ClientMissing | NoAccessToken | RequestFailed

  /** What the endpoint answered, or that the request failed. */
  type Reply = Result<Response, VkidError>

  function PostToken(reply: Reply, now: int, client: string): Result<Token, VkidError> {
    match reply
    case Err(e) => Err(e)
    case Ok(r) =>
      if r.access == "" then Err(NoAccessToken)
      else Ok(Token(r, if r.expiresIn > 0 then now + r.expiresIn else 0, "", client))
  }

  function TokenSession(t: Token): Session {
    Session(t.resp.userID, t.resp.access, t.resp.refresh, t.resp.idToken, t.device, t.client, t.resp.scope, t.expiresAt)
  }

  /** The client id a refresh is sent with: the configured one, else the session's. */
  function ClientFor(cfgClient: string, s: Session): string {
    if cfgClient == "" then s.client else cfgClient
  }

  /** The session that replaces s when the refresh of s is answered by reply. */
  function Refreshed(s: Session, cfgClient: string, reply: Reply, now: int): Result<Session, VkidError> {
    if !Refreshable(s) then Err(NotRefreshable)
    else
      match PostToken(reply, now, ClientFor(cfgClient, s))
      case Err(e) => Err(e)
      case Ok(t) =>
        var ns := TokenSession(t.(device := s.device));
        Ok(if ns.userID == 0 then ns.(userID := s.userID) else ns)
  }

  /** A session that the caller hands in to be refreshed in place. */
  class SessionCell {
    var s: Session

    constructor (init: Session)
      ensures s == init
    {
      s := init;
    }

    /** On success the cell holds the new session; on failure it is untouched. */
    method RefreshSession(cfgClient: string, reply: Reply, now: int) returns (r: Result<Token, VkidError>)
      modifies this
      ensures var spec := Refreshed(old(s), cfgClient, reply, now);
        && (r.Ok? <==> spec.Ok?)
        && s == (if spec.Ok? then spec.value else old(s))
        && (r.Ok? ==> r.value.resp == reply.value)
        && (r.Err? ==> r.error == spec.error)
    {
      if !Refreshable(s) {
        return Err(NotRefreshable);
      }
      var client := cfgClient;
      if client == "" {
        client := s.client;
      }
      r := Refresh(client, s.refresh, s.device, reply, now);
      if r.Err? {
        return;
      }
      var ns := TokenSession(r.value);
      if ns.userID == 0 {
        ns := ns.(userID := s.userID);
      }
      s := ns;
    }
  }

  /** The exchange itself; it rejects empty arguments before anything is sent. */
  method Refresh(client: string, refreshToken: string, device: string, reply: Reply, now: int)
    returns (r: Result<Token, VkidError>)
    ensures client == "" ==> r == Err(ClientMissing)
    ensures client != "" && (refreshToken == "" || device == "") ==> r == Err(NotRefreshable)
    ensures client != "" && refreshToken != "" && device != "" ==>
      match PostToken(reply, now, client)
      case Err(e) => r == Err(e)
      case Ok(t) => r == Ok(t.(device := device))
  {
    if client == "" {
      return Err(ClientMissing);
    }
    if refreshToken == "" || device == "" {
      return Err(NotRefreshable);
    }
    r := PostToken(reply, now, client);
    if r.Ok? {
      r := Ok(r.value.(device := device));
    }
  }

  /** What a successful refresh keeps and what it takes from the response: the device and
      a user id that the response lacks are kept, the client is the configured one or else
      kept, the lifetime counts from now, and everything else is the response's. */
  lemma RefreshedKeeps(s: Session, cfgClient: string, reply: Reply, now: int)
    requires Refreshed(s, cfgClient, reply, now).Ok?
    ensures reply.Ok? && reply.value.access != ""
    ensures var ns := Refreshed(s, cfgClient, reply, now).value;
      && ns.device == s.device && ns.client == (if cfgClient != "" then cfgClient else s.client) && ns.client != ""
      && ns.access == reply.value.access && ns.refresh == reply.value.refresh
      && ns.idToken == reply.value.idToken && ns.scope == reply.value.scope
      && ns.expiresAt == (if reply.value.expiresIn > 0 then now + reply.value.expiresIn else 0)
      && ns.userID == (if reply.value.userID != 0 then reply.value.userID else s.userID)
      && (Refreshable(ns) <==> reply.value.refresh != "")
  {
  }

  /** A refresh succeeds exactly if the session can be refreshed and the response has an
      access token. */
  lemma RefreshedIff(s: Session, cfgClient: string, reply: Reply, now: int)
    ensures Refreshed(s, cfgClient, reply, now).Ok? <==>
      s.refresh != "" && s.device != "" && s.client != "" && reply.Ok? && reply.value.access != ""
  {
  }
}
