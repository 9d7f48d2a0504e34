/** The in-memory homeserver: what a provisioning request does to an account. */
module Homeserver {
  import opened Wrappers

  datatype FieldUpdate<T> = Unchanged | Assign(value: T) | Clear {
    function Over(current: Option<T>): Option<T> {
      match this
      case Unchanged => current
      case Assign(v) => Some(v)
      case Clear => None
    }
    function Then(later: FieldUpdate<T>): FieldUpdate<T> {
      if later.Unchanged? then this else later
    }
  }

  datatype Request = Request(
    localpart: string, sub: string,
    displayname: FieldUpdate<string>, avatarUrl: FieldUpdate<string>, emails: FieldUpdate<seq<string>>,
    admin: Option<bool>)

  datatype Account = Account(
    sub: string, avatarUrl: Option<string>, displayname: Option<string>, devices: set<string>,
    emails: Option<seq<string>>, resetPermitted: bool, deactivated: bool, admin: bool)

  function NewAccount(sub: string): Account {
    Account(sub, None, None, {}, None, false, false, false)
  }

  /** The account after an accepted request. */
  function Provisioned(before: Option<Account>, r: Request): Account {
    var a := before.GetOr(NewAccount(r.sub));
    a.(emails := r.emails.Over(a.emails),
       displayname := r.displayname.Over(a.displayname),
       avatarUrl := r.avatarUrl.Over(a.avatarUrl),
       admin := r.admin.GetOr(a.admin))
  }

  /** What becomes of a field that a request may leave alone, set or clear. */
  ghost predicate Became<T>(update: FieldUpdate<T>, before: Option<T>, after: Option<T>) {
    && (update.Unchanged? ==> after == before)
    && (update.Assign? ==> after == Some(update.value))
    && (update.Clear? ==> after == None)
  }

  /** Every field of an account after an accepted request. */
  lemma ProvisionedFields(before: Option<Account>, r: Request)
    ensures var a := Provisioned(before, r);
            && Became(r.displayname, if before.Some? then before.value.displayname else None, a.displayname)
            && Became(r.avatarUrl, if before.Some? then before.value.avatarUrl else None, a.avatarUrl)
            && Became(r.emails, if before.Some? then before.value.emails else None, a.emails)
            && a.admin == (if r.admin.Some? then r.admin.value else before.Some? && before.value.admin)
    ensures var a := Provisioned(before, r);
            if before.Some? then
              && a.sub == before.value.sub && a.devices == before.value.devices
              && a.resetPermitted == before.value.resetPermitted && a.deactivated == before.value.deactivated
            else a.sub == r.sub && a.devices == {} && !a.resetPermitted && !a.deactivated
  {
  }

  function Find(accounts: map<string, Account>, mxid: string): Option<Account> {
    if mxid in accounts then Some(accounts[mxid]) else None
  }

  class HomeserverAdmin {
    const homeserver: string
    var accounts: map<string, Account>

    constructor (homeserver: string)
      ensures this.homeserver == homeserver && accounts == map[]
    {
      this.homeserver := homeserver;
      accounts := map[];
    }

    function Mxid(localpart: string): string {
      "@" + localpart + ":" + homeserver
    }

    /** At sign, local part, colon, server name. */
    lemma MxidParts(localpart: string)
      ensures var id := Mxid(localpart);
              && |id| == |localpart| + |homeserver| + 2 && id[0] == '@' && id[|localpart| + 1] == ':'
              && id[1..|localpart| + 1] == localpart && id[|localpart| + 2..] == homeserver
    {
    }

    /** Requests for different local parts touch different accounts. */
    lemma MxidInjective(a: string, b: string)
      requires Mxid(a) == Mxid(b)
      ensures a == b
    {
      assert Mxid(a)[1..|a| + 1] == a && Mxid(b)[1..|b| + 1] == b;
    }

    /** Refused, with nothing changed, exactly when the account belongs to another subject. */
    method ProvisionUser(r: Request) returns (result: Result<bool, string>)
      modifies this
      ensures var before := Find(old(accounts), Mxid(r.localpart));
              if before.Some? && before.value.sub != r.sub then result.Err? && accounts == old(accounts)
              else result == Ok(before.None?)
                   && accounts == old(accounts)[Mxid(r.localpart) := Provisioned(before, r)]
    {
      var id := Mxid(r.localpart);
      var isNew := id !in accounts;
      var account := if isNew then NewAccount(r.sub) else accounts[id];
      if account.sub != r.sub {
        return Err("User already provisioned with different sub");
      }
      account := account.(emails := r.emails.Over(account.emails));
      account := account.(displayname := r.displayname.Over(account.displayname));
      account := account.(avatarUrl := r.avatarUrl.Over(account.avatarUrl));
      if r.admin.Some? {
        account := account.(admin := r.admin.value);
      }
      accounts := accounts[id := account];
      result := Ok(isNew);
    }

    method SyncDevices(localpart: string, devices: set<string>) returns (ok: bool)
      modifies this
      ensures ok == (Mxid(localpart) in old(accounts))
      ensures accounts == if ok
                then old(accounts)[Mxid(localpart) := old(accounts)[Mxid(localpart)].(devices := devices)]
                else old(accounts)
    {
      ok := Mxid(localpart) in accounts;
      if ok {
        accounts := accounts[Mxid(localpart) := accounts[Mxid(localpart)].(devices := devices)];
      }
    }

    /** Deactivation clears devices and emails, and with `erase` the profile; admin flag and subject stay. */
    method DeleteUser(localpart: string, erase: bool) returns (ok: bool)
      modifies this
      ensures ok == (Mxid(localpart) in old(accounts))
      ensures accounts == if ok
                then var a := old(accounts)[Mxid(localpart)];
                     old(accounts)[Mxid(localpart) :=
                       Account(a.sub, if erase then None else a.avatarUrl, if erase then None else a.displayname,
                               {}, None, a.resetPermitted, true, a.admin)]
                else old(accounts)
    {
      ok := Mxid(localpart) in accounts;
      if ok {
        var a := accounts[Mxid(localpart)].(devices := {}, emails := None, deactivated := true);
        if erase { a := a.(avatarUrl := None, displayname := None); }
        accounts := accounts[Mxid(localpart) := a];
      }
    }
  }

  /** Two requests as one. */
  function Merged(first: Request, second: Request): Request {
    second.(displayname := first.displayname.Then(second.displayname),
            avatarUrl := first.avatarUrl.Then(second.avatarUrl),
            emails := first.emails.Then(second.emails),
            admin := if second.admin.Some? then second.admin else first.admin)
  }

  function ProvisionAll(before: Option<Account>, requests: seq<Request>): Option<Account> {
    if requests == [] then before
    else Some(Provisioned(ProvisionAll(before, requests[..|requests| - 1]), requests[|requests| - 1]))
  }

  function MergeAll(requests: seq<Request>): Request
    requires requests != []
  {
    if |requests| == 1 then requests[0]
    else Merged(MergeAll(requests[..|requests| - 1]), requests[|requests| - 1])
  }

  lemma {:induction false} MergeAllSub(requests: seq<Request>)
    requires requests != []
    ensures MergeAll(requests).sub == requests[|requests| - 1].sub
  {
  }

  /** A run of accepted requests leaves what their merge would have left; repeats change nothing. */
  lemma {:induction false} RequestsMerge(before: Option<Account>, requests: seq<Request>)
    requires requests != [] && forall i :: 0 <= i < |requests| ==> requests[i].sub == requests[0].sub
    ensures ProvisionAll(before, requests) == Some(Provisioned(before, MergeAll(requests)))
    ensures ProvisionAll(before, requests + [MergeAll(requests)]) == ProvisionAll(before, requests)
  {
    var last := |requests| - 1;
    assert ProvisionAll(before, requests[..0]) == before;
    if last > 0 {
      RequestsMerge(before, requests[..last]);
      MergeAllSub(requests[..last]);
    } else {
      assert requests[..last] == requests[..0];
    }
    assert (requests + [MergeAll(requests)])[..|requests|] == requests;
  }
}
