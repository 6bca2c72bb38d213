/** The profile manager: looks profiles up by name in the local profile
    service's list, starts them, stops them, and remembers the one browser it
    started last. Replies of the service are abstract inputs. */
module ProfileManager {
  import opened Common

  /** An entry of the service's profile list; a field is None when the entry
      lacks the key. */
  datatype Profile = Profile(name: Option<string>, userId: Option<string>)

  /** A profile-list reply; `data` is None when the reply carries no list. */
  type ListReply = Reply<Option<seq<Profile>>>

  /** `get_browser_list` of the manager: the listed profiles, or [] on any
      failure. */
  function GetBrowserList(reply: ListReply): (r: seq<Profile>)
    ensures !reply.IsOk() ==> r == []
    ensures reply.IsOk() && reply.data.Some? ==> r == reply.data.value
    ensures reply.IsOk() && reply.data.None? ==> r == []
  {
    if reply.IsOk() then reply.data.GetOr([]) else []
  }

  /** Position of the first profile called `name`. */
  function FirstNamed(list: seq<Profile>, name: string): (r: Option<nat>)
    ensures r.Some? ==> r.value < |list| && list[r.value].name == Some(name)
    ensures r.Some? ==> forall j :: 0 <= j < r.value ==> list[j].name != Some(name)
    ensures r.None? <==> forall j :: 0 <= j < |list| ==> list[j].name != Some(name)
  {
    if list == [] then None
    else if list[0].name == Some(name) then Some(0)
    else match FirstNamed(list[1..], name)
      case None => None
      case Some(k) => Some(k + 1)
  }

  /** The id `find_browser_id` answers: that of the first profile of that
      name (None when there is none, or when that entry has no id). */
  function IdOf(list: seq<Profile>, name: string): Option<string> {
    match FirstNamed(list, name)
    case None => None
    case Some(i) => list[i].userId
  }

  /** `find_browser_id`: a linear search of the list for the name. */
  method FindBrowserId(reply: ListReply, name: string) returns (r: Option<string>)
    ensures r == IdOf(GetBrowserList(reply), name)
    ensures r.Some? ==> exists i :: 0 <= i < |GetBrowserList(reply)| && GetBrowserList(reply)[i].name == Some(name)
                                    && GetBrowserList(reply)[i].userId == r
  {
    var list := GetBrowserList(reply);
    var i := 0;
    while i < |list|
      invariant 0 <= i <= |list|
      invariant forall j :: 0 <= j < i ==> list[j].name != Some(name)
    {
      if list[i].name == Some(name) {
        return list[i].userId;
      }
      i := i + 1;
    }
    r := None;
  }

  /** Python truthiness of an optional id. */
  predicate Truthy(id: Option<string>) {
    id.Some? && id.value != ""
  }

  /** The remembered browser after a stop of `id` answered by `reply`: cleared
      only when the stop is accepted and it is that browser. */
  function AfterStop(current: Option<BrowserInfo>, id: string, reply: Reply<()>): (r: Option<BrowserInfo>)
    ensures r.None? || r == current
    ensures r != current ==> StopAccepted(reply) && current.value.userId == id
    ensures StopAccepted(reply) && current.Some? && current.value.userId == id ==> r.None?
  {
    if StopAccepted(reply) && current.Some? && current.value.userId == id then None else current
  }

  /** What `start_browser` answers, given the remembered browser before the
      call and the service's replies: None for an unknown name, the
      remembered browser when it is that profile, otherwise the information
      of the started profile (None when the start fails). */
  function StartResult(current: Option<BrowserInfo>, list: seq<Profile>, name: string,
                       startReply: Reply<LaunchData>): (r: Option<BrowserInfo>)
    ensures r.Some? ==> Truthy(IdOf(list, name)) && r.value.userId == IdOf(list, name).value
  {
    var id := IdOf(list, name);
    if !Truthy(id) then None
    else if current.Some? && current.value.userId == id.value then current
    else if startReply.IsOk() then InfoFrom(id.value, startReply.data)
    else None
  }

  /** The remembered browser after `start_browser`: the started one on
      success; after a failed start, what stopping the previous one left. */
  function StartState(current: Option<BrowserInfo>, list: seq<Profile>, name: string,
                      stopReply: Reply<()>, startReply: Reply<LaunchData>): (s: Option<BrowserInfo>)
    ensures StartResult(current, list, name, startReply).Some? ==> s == StartResult(current, list, name, startReply)
    ensures s.None? || s == current || s == StartResult(current, list, name, startReply)
  {
    var id := IdOf(list, name);
    var r := StartResult(current, list, name, startReply);
    if r.Some? then r
    else if Truthy(id) && current.Some? && current.value.userId != id.value
    then AfterStop(current, current.value.userId, stopReply)
    else current
  }

  class AdsPowerManager {
    /** `current_browser_info`: the browser this manager started last. */
    var currentBrowserInfo: Option<BrowserInfo>

    constructor ()
      ensures currentBrowserInfo.None?
    {
      currentBrowserInfo := None;
    }

    /** `stop_browser`: asks the service to stop `id`; an accepted stop of the
        remembered browser forgets it. */
    method StopBrowser(id: string, reply: Reply<()>) returns (ok: bool)
      modifies this
      ensures ok == StopAccepted(reply)
      ensures currentBrowserInfo == AfterStop(old(currentBrowserInfo), id, reply)
      ensures !ok ==> unchanged(this)
    {
      if !StopAccepted(reply) {
        return false;
      }
      if currentBrowserInfo.Some? && currentBrowserInfo.value.userId == id {
        currentBrowserInfo := None;
      }
      ok := true;
    }

    /** `start_browser`: resolves the name; reuses the remembered browser when
        it is that profile; otherwise stops the remembered one (its outcome is
        not checked) and starts the profile, remembering the result. */
    method StartBrowser(name: string, listReply: ListReply, stopReply: Reply<()>, startReply: Reply<LaunchData>)
      returns (r: Option<BrowserInfo>)
      modifies this
      ensures var id := IdOf(GetBrowserList(listReply), name);
              !Truthy(id) ==> r.None? && unchanged(this)
      ensures var id := IdOf(GetBrowserList(listReply), name);
              Truthy(id) && old(currentBrowserInfo).Some? && old(currentBrowserInfo).value.userId == id.value
              ==> r == old(currentBrowserInfo) && unchanged(this)
      ensures var id := IdOf(GetBrowserList(listReply), name);
              Truthy(id) && (old(currentBrowserInfo).None? || old(currentBrowserInfo).value.userId != id.value) ==>
                var afterStop := if old(currentBrowserInfo).Some?
                                 then AfterStop(old(currentBrowserInfo), old(currentBrowserInfo).value.userId, stopReply)
                                 else None;
                && r == (if startReply.IsOk() then InfoFrom(id.value, startReply.data) else None)
                && currentBrowserInfo == (if r.Some? then r else afterStop)
      ensures r.Some? ==> Truthy(IdOf(GetBrowserList(listReply), name))
                          && r.value.userId == IdOf(GetBrowserList(listReply), name).value
      ensures r.Some? ==> currentBrowserInfo == r
      ensures r == StartResult(old(currentBrowserInfo), GetBrowserList(listReply), name, startReply)
      ensures currentBrowserInfo == StartState(old(currentBrowserInfo), GetBrowserList(listReply), name, stopReply, startReply)
    {
      var id := FindBrowserId(listReply, name);
      if !Truthy(id) {
        return None;
      }
      if currentBrowserInfo.Some? {
        if currentBrowserInfo.value.userId == id.value {
          return currentBrowserInfo;
        }
        var _ := StopBrowser(currentBrowserInfo.value.userId, stopReply);
      }
      if !startReply.IsOk() {
        return None;
      }
      r := InfoFrom(id.value, startReply.data);
      if r.Some? {
        currentBrowserInfo := r;
      }
    }

    /** `reconnect_browser`: when the remembered browser is not `info`'s
        profile, it restarts it through `start_browser`, passing the profile
        ID where a profile NAME is expected; then it attaches a new driver
        (`attached` is None when creating or probing it raised). */
    method ReconnectBrowser(info: BrowserInfo, listReply: ListReply, stopReply: Reply<()>,
                            startReply: Reply<LaunchData>, attached: Option<Session>)
      returns (r: Option<Session>)
      modifies this
      ensures old(currentBrowserInfo).Some? && old(currentBrowserInfo).value.userId == info.userId
              ==> r == attached && unchanged(this)
      ensures r.Some? ==> r == attached
      ensures !(old(currentBrowserInfo).Some? && old(currentBrowserInfo).value.userId == info.userId)
              && FirstNamed(GetBrowserList(listReply), info.userId).None?
              ==> r.None? && unchanged(this)
      ensures !(old(currentBrowserInfo).Some? && old(currentBrowserInfo).value.userId == info.userId)
              ==> var restarted := StartResult(old(currentBrowserInfo), GetBrowserList(listReply), info.userId, startReply);
                  && r == (if restarted.Some? then attached else None)
                  && currentBrowserInfo
                     == StartState(old(currentBrowserInfo), GetBrowserList(listReply), info.userId, stopReply, startReply)
    {
      if currentBrowserInfo.None? || currentBrowserInfo.value.userId != info.userId {
        var restarted := StartBrowser(info.userId, listReply, stopReply, startReply);
        if restarted.None? {
          return None;
        }
      }
      r := attached;
    }
  }

  /** `start_browser` called with a profile id, as the restart path of
      `reconnect_browser` calls it, succeeds only when some listed profile is
      NAMED like that id. */
  lemma RestartNeedsNameEqualToId(current: Option<BrowserInfo>, list: seq<Profile>, id: string,
                                  startReply: Reply<LaunchData>)
    ensures StartResult(current, list, id, startReply).Some? ==>
              exists i :: 0 <= i < |list| && list[i].name == Some(id)
  {
    if StartResult(current, list, id, startReply).Some? {
      var k := FirstNamed(list, id).value;
      assert list[k].name == Some(id);
    }
  }

  /** With the service's usual lists, where profile names are not profile
      ids, the restart path of `reconnect_browser` cannot find the profile. */
  lemma IdIsNotAName(list: seq<Profile>, id: string)
    requires forall i :: 0 <= i < |list| ==> list[i].name != Some(id)
    ensures FirstNamed(list, id).None? && IdOf(list, id).None?
  {
  }
}
