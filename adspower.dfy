/** The profile controller: starts a profile by id and attaches a driver to
    it, stops profiles, closes its own browser, and asks whether a profile is
    active. It remembers the driver it attached and the profile id it
    started. Replies of the local profile service are abstract inputs. */
module ProfileController {
  import opened Common
  import ProfileManager

  /** `get_browser_list` of the controller: the listed profiles, or None on
      any failure. */
  function GetBrowserList(reply: ProfileManager.ListReply): (r: Option<seq<ProfileManager.Profile>>)
    ensures r.None? <==> !reply.IsOk()
    ensures r.Some? ==> r.value == reply.data.GetOr([])
  {
    if reply.IsOk() then Some(reply.data.GetOr([])) else None
  }

  /** The two clients list the same profiles; where the manager answers [],
      the controller answers None on failure. */
  lemma ListsAgree(reply: ProfileManager.ListReply)
    ensures ProfileManager.GetBrowserList(reply) == GetBrowserList(reply).GetOr([])
    ensures GetBrowserList(reply).None? ==> ProfileManager.GetBrowserList(reply) == []
  {
  }

  /** `stop_browser_by_id`. */
  function StopBrowserById(reply: Reply<()>): (ok: bool)
    ensures ok <==> StopAccepted(reply)
    ensures reply.Answer? && reply.code == 0 ==> ok
    ensures reply.Raised? ==> !ok
  {
    if reply.Raised? then false
    else if reply.code != 0 then Contains(Lower(reply.msg), "not open")
    else true
  }

  /** `check_browser_status`: True iff the service answers code 0 with status
      "Active" (`reply.data` is the status field, None when absent). */
  function CheckBrowserStatus(reply: Reply<Option<string>>): (active: bool)
    ensures active ==> reply.Answer? && reply.code == 0
    ensures reply.IsOk() ==> (active <==> reply.data == Some("Active"))
  {
    if !reply.IsOk() then false else reply.data == Some("Active")
  }

  class AdsPowerController {
    /** The driver attached to the started profile, if any. */
    var driver: Option<Session>
    /** `current_user_id`: the profile id last started. */
    var currentUserId: Option<string>

    constructor ()
      ensures driver.None? && currentUserId.None?
    {
      driver := None;
      currentUserId := None;
    }

    /** `start_browser_by_id`: a non-zero code, a missing endpoint or a driver
        that cannot be created (`created` None) gives None and changes
        nothing; otherwise the new driver and the id are kept. */
    method StartBrowserById(userId: string, reply: Reply<LaunchData>, created: Option<Session>)
      returns (r: Option<BrowserInfo>)
      modifies this
      ensures r.Some? <==> reply.IsOk() && InfoFrom(userId, reply.data).Some? && created.Some?
      ensures r.Some? ==> r == InfoFrom(userId, reply.data)
      ensures r.Some? ==> driver == created && currentUserId == Some(userId)
      ensures r.None? ==> unchanged(this)
    {
      if !reply.IsOk() {
        return None;
      }
      var info := InfoFrom(userId, reply.data);
      if info.None? || created.None? {
        return None;
      }
      driver := created;
      currentUserId := Some(userId);
      r := info;
    }

    /** `close_browser`: without a driver nothing happens; if quitting the
        driver raises, nothing changes either. Otherwise the remembered
        profile, if any, is stopped (its outcome is ignored) and both fields
        are cleared. `stopped` says whether a stop was requested. */
    method CloseBrowser(quitRaises: bool) returns (stopped: bool)
      modifies this
      ensures old(driver).None? || quitRaises ==> unchanged(this) && !stopped
      ensures old(driver).Some? && !quitRaises ==> driver.None? && currentUserId.None?
      ensures stopped <==> old(driver).Some? && !quitRaises && old(currentUserId).Some? && old(currentUserId).value != ""
    {
      stopped := false;
      if driver.None? || quitRaises {
        return;
      }
      if currentUserId.Some? && currentUserId.value != "" {
        stopped := true;
      }
      currentUserId := None;
      driver := None;
    }
  }
}
