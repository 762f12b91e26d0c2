/** The `Message` class of `python/Message.py`: it routes a request to the service held
    in one slot of an account, or answers with an error string. Its only state is the
    account it was given, which it never changes, so each operation is a function of
    the account's slots. */
module Message {
  import opened Wrappers
  import opened PyValues
  import opened ServiceAccount

  /** What an operation returns: a string of its own, whatever the named method of the
      held service returns for these arguments, or an exception. */
  datatype Reply =
    | Text(s: string)
    | Delegate(target: Connection, op: string, args: seq<Value>)
    | Raised(exc: Exc)

  /** `create(to_email, subject, content)` */
  function Create(slots: Slots, toEmail: Value, subject: Value, content: Value): Reply
  {
    if slots.email.None? then Text("Error: No email service connected")
    else Delegate(slots.email.value, "send_email", [toEmail, subject, content])
  }

  /** `list(service, **kwargs)`; the keyword arguments are not used. */
  function List(slots: Slots, service: string): Reply
  {
    if service == "cloudflare" then
      if slots.cloudflare.None? then Text("Error: Cloudflare service not connected")
      else Delegate(slots.cloudflare.value, "list_zones", [])
    else if service == "gitlab" then
      if slots.gitlab.None? then Text("Error: GitLab service not connected")
      else Delegate(slots.gitlab.value, "list_projects", [])
    else if service == "github" then
      if slots.github.None? then Text("Error: GitHub service not connected")
      else Delegate(slots.github.value, "list_repositories", [])
    else if service == "plesk" then
      if slots.plesk.None? then Text("Error: Plesk service not connected")
      else Delegate(slots.plesk.value, "list_domains", [])
    else Text("Error: Unsupported service for listing: " + service)
  }

  /** The keyword arguments named in order, or the `KeyError` of the first one missing. */
  function Lookup(kwargs: map<string, Value>, names: seq<string>): (r: Result<seq<Value>, Exc>)
    ensures r.Ok? <==> forall i :: 0 <= i < |names| ==> names[i] in kwargs
    ensures r.Ok? ==> r.value == Arguments(kwargs, names)
    ensures r.Err? ==> r.error == KeyError(FirstMissing(kwargs, names).value)
  {
    match FirstMissing(kwargs, names)
    case Some(k) => Err(KeyError(k))
    case None => Ok(Arguments(kwargs, names))
  }

  function DelegateOrRaise(target: Connection, op: string, args: Result<seq<Value>, Exc>): Reply
  {
    match args
    case Ok(values) => Delegate(target, op, values)
    case Err(e) => Raised(e)
  }

  /** `create_issue(service, **kwargs)` */
  function CreateIssue(slots: Slots, service: string, kwargs: map<string, Value>): Reply
  {
    if service == "gitlab" then
      if slots.gitlab.None? then Text("Error: GitLab service not connected")
      else DelegateOrRaise(slots.gitlab.value, "create_issue", Lookup(kwargs, ["project_id", "title", "description"]))
    else if service == "github" then
      if slots.github.None? then Text("Error: GitHub service not connected")
      else DelegateOrRaise(slots.github.value, "create_issue", Lookup(kwargs, ["repo_owner", "repo_name", "title", "body"]))
    else Text("Error: Unsupported service for creating issues: " + service)
  }

  /** `purge_cache(zone_id)` */
  function PurgeCache(slots: Slots, zoneId: Value): Reply
  {
    if slots.cloudflare.None? then Text("Error: Cloudflare service not connected")
    else Delegate(slots.cloudflare.value, "purge_cache", [zoneId])
  }

  /** `create_database(webspace_name, db_name, db_user, db_password)` */
  function CreateDatabase(slots: Slots, webspaceName: Value, dbName: Value, dbUser: Value, dbPassword: Value): Reply
  {
    if slots.plesk.None? then Text("Error: Plesk service not connected")
    else Delegate(slots.plesk.value, "create_database", [webspaceName, dbName, dbUser, dbPassword])
  }

  /** The listing table: the slot, the service method and the not-connected error for
      each service `list` knows. */
  function ListRoute(service: string): Option<(Slot, string, string)>
  {
    if service == "cloudflare" then Some((CloudflareSlot, "list_zones", "Error: Cloudflare service not connected"))
    else if service == "gitlab" then Some((GitLabSlot, "list_projects", "Error: GitLab service not connected"))
    else if service == "github" then Some((GitHubSlot, "list_repositories", "Error: GitHub service not connected"))
    else if service == "plesk" then Some((PleskSlot, "list_domains", "Error: Plesk service not connected"))
    else None
  }

  /** The four service names `list` knows are different strings. */
  lemma NamesDistinct()
    ensures "cloudflare" != "gitlab" && "cloudflare" != "github" && "cloudflare" != "plesk"
    ensures "gitlab" != "github" && "gitlab" != "plesk" && "github" != "plesk"
  {
    assert "gitlab"[3] != "github"[3];
  }

  /** `list` follows the table: a known service is delegated to the connection in its
      slot with no arguments, or answered with its own not-connected error when the slot
      is empty; any other name is unsupported whatever the account holds. */
  lemma ListFollowsRoute(slots: Slots, service: string)
    ensures match ListRoute(service)
      case None => List(slots, service) == Text("Error: Unsupported service for listing: " + service)
      case Some((slot, op, notConnected)) =>
        List(slots, service) == if slots.Get(slot).None? then Text(notConnected)
                                else Delegate(slots.Get(slot).value, op, [])
  {
    NamesDistinct();
  }

  /** `list` only ever calls a connection the account holds, in the slot of the name. */
  lemma ListDelegatesToHeldConnection(slots: Slots, service: string)
    ensures List(slots, service).Delegate? ==>
      ListRoute(service).Some? && slots.Get(ListRoute(service).value.0) == Some(List(slots, service).target)
  {
    ListFollowsRoute(slots, service);
  }

  /** `create_issue` only ever calls the GitLab or GitHub connection the account holds. */
  lemma CreateIssueDelegatesToHeldConnection(slots: Slots, service: string, kwargs: map<string, Value>)
    ensures CreateIssue(slots, service, kwargs).Delegate? ==>
      (service == "gitlab" && slots.gitlab == Some(CreateIssue(slots, service, kwargs).target))
      || (service == "github" && slots.github == Some(CreateIssue(slots, service, kwargs).target))
  {
  }

  /** `create`, `purge_cache` and `create_database` call the mail, Cloudflare and Plesk
      connections exactly when the account holds one, passing their arguments on. */
  lemma SingleSlotOperations(slots: Slots, a: Value, b: Value, c: Value, d: Value)
    ensures Create(slots, a, b, c).Delegate? <==> slots.email.Some?
    ensures Create(slots, a, b, c).Delegate? ==> Create(slots, a, b, c) == Delegate(slots.email.value, "send_email", [a, b, c])
    ensures PurgeCache(slots, a).Delegate? <==> slots.cloudflare.Some?
    ensures PurgeCache(slots, a).Delegate? ==> PurgeCache(slots, a) == Delegate(slots.cloudflare.value, "purge_cache", [a])
    ensures CreateDatabase(slots, a, b, c, d).Delegate? <==> slots.plesk.Some?
    ensures CreateDatabase(slots, a, b, c, d).Delegate? ==>
      CreateDatabase(slots, a, b, c, d) == Delegate(slots.plesk.value, "create_database", [a, b, c, d])
  {
  }

  /** An unsupported service name gets the same answer whatever the account holds. */
  lemma UnsupportedIgnoresAccount(a: Slots, b: Slots, service: string, kwargs: map<string, Value>)
    ensures ListRoute(service).None? ==> List(a, service) == List(b, service)
    ensures service != "gitlab" && service != "github" ==> CreateIssue(a, service, kwargs) == CreateIssue(b, service, kwargs)
  {
  }

  /** `create_issue` checks the slot before it reads the keyword arguments: with the slot
      empty, missing arguments raise nothing. With the slot held, the first missing
      argument raises `KeyError`. */
  lemma CreateIssueChecksSlotFirst(slots: Slots, service: string, kwargs: map<string, Value>)
    requires service == "gitlab" || service == "github"
    ensures (if service == "gitlab" then slots.gitlab else slots.github).None? ==>
      CreateIssue(slots, service, kwargs).Text?
    ensures (if service == "gitlab" then slots.gitlab else slots.github).Some? && "title" !in kwargs ==>
      CreateIssue(slots, service, kwargs).Raised?
  {
    var names := if service == "gitlab" then ["project_id", "title", "description"]
                 else ["repo_owner", "repo_name", "title", "body"];
    if "title" !in kwargs {
      assert names[if service == "gitlab" then 1 else 2] == "title";
    }
  }

  /** After connecting GitHub, `list('github')` lists the repositories of the service just
      built; after disconnecting it, the answer is the not-connected error. */
  lemma ListAfterConnectAndDisconnect(s: Slots, kwargs: map<string, Value>, build: Build)
    requires ConnectSpec(s, "GitHubService", kwargs, build).1.Ok?
    ensures var t := ConnectSpec(s, "GitHubService", kwargs, build).0;
      && List(t, "github") == Delegate(Connection("GitHubService", Arguments(kwargs, ["access_token"])), "list_repositories", [])
      && List(DisconnectSpec(t, "GitHubService").0, "github") == Text("Error: GitHub service not connected")
  {
    ConnectChangesOnlyItsSlot(s, "GitHubService", kwargs, build);
  }
}
