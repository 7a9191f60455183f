/// api/api_integrations.go: the install and uninstall endpoints and the
/// response object they fill in.
///
/// The response is an object whose status and messages the handlers
/// update in place; its timestamps are left out. Decoding the request, the
/// package manager's `Add` and `Del` and encoding the response are
/// parameters: what decoding yields, the error (if any) `Add`/`Del`
/// return for the given arguments, and the encoder's error.
module Integrations {
  import opened Wrappers
  import opened GoStrings

  datatype InstallRequest = InstallRequest(id: string, version: string)

  /// `IntegrationsResponse`, without its timestamps.
  class IntegrationsResponse {
    var typ: string
    var status: string
    var messages: seq<string>

    /// `NewIntegrationsResponse`.
    constructor (typ: string)
      ensures this.typ == typ && status == "completed" && messages == []
    {
      this.typ := typ;
      status := "completed";
      messages := [];
    }

    method AddMessage(msg: string)
      modifies this
      ensures messages == old(messages) + [msg]
      ensures typ == old(typ) && status == old(status)
    {
      messages := messages + [msg];
    }
  }

  /// The status and messages an install ends with.
  function InstallSpec(decoded: Result<InstallRequest, string>, add: (string, string) -> Option<string>):
    (string, seq<string>)
  {
    match decoded
    case Err(e) => ("failed", ["failed to decode request body: " + e])
    case Ok(req) =>
      match add(req.id, req.version)
      case Some(e) => ("failed", ["install command failed: " + e])
      case None => ("ok", ["plugin " + Quote(req.id) + " installed successfully"])
  }

  /// The status and messages an uninstall ends with.
  function UninstallSpec(id: string, del: string -> Option<string>): (string, seq<string>) {
    match del(id)
    case Some(e) => ("failed", ["uninstall command failed: " + e])
    case None => ("ok", ["plugin " + Quote(id) + " uninstalled successfully"])
  }

  /// `integrationsInstall`: `add` is the package manager's `Add` with the
  /// request's version and implicit fetching.
  method IntegrationsInstall(decoded: Result<InstallRequest, string>, add: (string, string) -> Option<string>,
                             encodeError: Option<string>)
    returns (resp: IntegrationsResponse, err: Option<string>)
    ensures fresh(resp) && resp.typ == "pkg_install"
    ensures (resp.status, resp.messages) == InstallSpec(decoded, add)
    ensures err == encodeError
  {
    resp := new IntegrationsResponse("pkg_install");
    resp.status := "failed";
    if decoded.Err? {
      resp.AddMessage("failed to decode request body: " + decoded.error);
      assert resp.messages == ["failed to decode request body: " + decoded.error];
      return resp, encodeError;
    }
    var req := decoded.value;
    var failure := add(req.id, req.version);
    if failure.Some? {
      resp.AddMessage("install command failed: " + failure.value);
      assert resp.messages == ["install command failed: " + failure.value];
      return resp, encodeError;
    }
    resp.status := "ok";
    resp.AddMessage("plugin " + Quote(req.id) + " installed successfully");
    assert resp.messages == ["plugin " + Quote(req.id) + " installed successfully"];
    return resp, encodeError;
  }

  /// `integrationsUninstall` for the `id` path value.
  method IntegrationsUninstall(id: string, del: string -> Option<string>, encodeError: Option<string>)
    returns (resp: IntegrationsResponse, err: Option<string>)
    ensures fresh(resp) && resp.typ == "pkg_uninstall"
    ensures (resp.status, resp.messages) == UninstallSpec(id, del)
    ensures err == encodeError
  {
    resp := new IntegrationsResponse("pkg_uninstall");
    resp.status := "failed";
    var failure := del(id);
    if failure.Some? {
      resp.AddMessage("uninstall command failed: " + failure.value);
      assert resp.messages == ["uninstall command failed: " + failure.value];
      return resp, encodeError;
    }
    resp.status := "ok";
    resp.AddMessage("plugin " + Quote(id) + " uninstalled successfully");
    assert resp.messages == ["plugin " + Quote(id) + " uninstalled successfully"];
    return resp, encodeError;
  }

  /// An install is "ok" exactly when decoding and `Add` both succeed and
  /// "failed" otherwise, and it always leaves exactly one message, naming
  /// the plugin (quoted so that it reads back) on success.
  lemma InstallOutcome(decoded: Result<InstallRequest, string>, add: (string, string) -> Option<string>)
    ensures var (status, messages) := InstallSpec(decoded, add);
      |messages| == 1 && (status == "ok" || status == "failed") &&
      (status == "ok" <==> decoded.Ok? && add(decoded.value.id, decoded.value.version).None?) &&
      (status == "ok" ==> var q := Quote(decoded.value.id);
        messages[0][..7] == "plugin " && messages[0][7..7 + |q|] == q && Unescape(q[1..|q| - 1]) == decoded.value.id)
  {
    if decoded.Ok? && add(decoded.value.id, decoded.value.version).None? {
      QuoteRoundTrip(decoded.value.id);
    }
  }

  /// An uninstall is "ok" exactly when `Del` succeeds, and it always
  /// leaves exactly one message.
  lemma UninstallOutcome(id: string, del: string -> Option<string>)
    ensures var (status, messages) := UninstallSpec(id, del);
      |messages| == 1 && (status == "ok" || status == "failed") &&
      (status == "ok" <==> del(id).None?) &&
      (status == "failed" ==> messages[0] == "uninstall command failed: " + del(id).value)
  {
  }
}
