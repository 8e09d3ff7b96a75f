/**
 * The `scope` properties: the policy scope each evaluator sends for the
 * view's action. An action missing from a table yields `None`, which is
 * still sent (as JSON null).
 */
module Scopes {
  import opened Wrappers

  const ServerScopes: map<string, string> := map[
    "annotation_formats" := "VIEW",
    "about" := "VIEW",
    "plugins" := "VIEW",
    "exception" := "SEND_EXCEPTION",
    "logs" := "SEND_LOGS",
    "share" := "LIST_CONTENT"]

  const UserScopes: map<string, string> := map[
    "list" := "LIST",
    "self" := "VIEW_SELF",
    "retrieve" := "VIEW"]

  const LambdaScopes: map<(string, string), string> := map[
    ("function", "list") := "LIST",
    ("function", "retrieve") := "VIEW",
    ("function", "call") := "CALL_ONLINE",
    ("request", "create") := "CALL_OFFLINE",
    ("request", "list") := "CALL_OFFLINE",
    ("request", "retrieve") := "CALL_OFFLINE",
    ("request", "destroy") := "CALL_OFFLINE"]

  const OrganizationScopes: map<string, string> := map[
    "list" := "LIST",
    "create" := "CREATE",
    "destroy" := "DELETE",
    "partial_update" := "UPDATE",
    "retrieve" := "VIEW"]

  const MembershipScopes: map<string, string> := map[
    "list" := "LIST",
    "partial_update" := "CHANGE_ROLE",
    "retrieve" := "VIEW",
    "delete" := "DELETE"]

  function ServerScope(action: string): (scope: Option<string>)
    ensures scope == Some("VIEW") <==> action in {"annotation_formats", "about", "plugins"}
    ensures scope == Some("SEND_EXCEPTION") <==> action == "exception"
    ensures scope == Some("SEND_LOGS") <==> action == "logs"
    ensures scope == Some("LIST_CONTENT") <==> action == "share"
    ensures scope.Some? ==> scope.value in {"VIEW", "SEND_EXCEPTION", "SEND_LOGS", "LIST_CONTENT"}
  {
    Lookup(ServerScopes, action)
  }

  function UserScope(action: string): (scope: Option<string>)
    ensures scope == Some("LIST") <==> action == "list"
    ensures scope == Some("VIEW_SELF") <==> action == "self"
    ensures scope == Some("VIEW") <==> action == "retrieve"
    ensures scope.Some? ==> scope.value in {"LIST", "VIEW_SELF", "VIEW"}
  {
    Lookup(UserScopes, action)
  }

  /** Keyed on the view's basename as well as its action. */
  function LambdaScope(basename: string, action: string): (scope: Option<string>)
    ensures scope.Some? ==> basename in {"function", "request"}
    ensures basename == "function" ==>
      (scope == Some("LIST") <==> action == "list") &&
      (scope == Some("VIEW") <==> action == "retrieve") &&
      (scope == Some("CALL_ONLINE") <==> action == "call") &&
      (scope.Some? ==> action in {"list", "retrieve", "call"})
    ensures basename == "request" ==>
      (scope.Some? <==> action in {"create", "list", "retrieve", "destroy"}) &&
      (scope.Some? ==> scope.value == "CALL_OFFLINE")
  {
    Lookup(LambdaScopes, (basename, action))
  }

  function OrganizationScope(action: string): (scope: Option<string>)
    ensures scope == Some("LIST") <==> action == "list"
    ensures scope == Some("CREATE") <==> action == "create"
    ensures scope == Some("DELETE") <==> action == "destroy"
    ensures scope == Some("UPDATE") <==> action == "partial_update"
    ensures scope == Some("VIEW") <==> action == "retrieve"
    ensures scope.Some? ==> scope.value in {"LIST", "CREATE", "DELETE", "UPDATE", "VIEW"}
  {
    Lookup(OrganizationScopes, action)
  }

  /** Deletion is keyed on `delete`, not on the `destroy` action other tables use. */
  function MembershipScope(action: string): (scope: Option<string>)
    ensures scope == Some("LIST") <==> action == "list"
    ensures scope == Some("CHANGE_ROLE") <==> action == "partial_update"
    ensures scope == Some("VIEW") <==> action == "retrieve"
    ensures scope == Some("DELETE") <==> action == "delete"
    ensures scope.Some? ==> scope.value in {"LIST", "CHANGE_ROLE", "VIEW", "DELETE"}
  {
    Lookup(MembershipScopes, action)
  }
}
