/**
 * client/src/context/AuthContext.tsx: the `AuthProvider` state (`user`,
 * `loading`, `savedCrops`) and its actions. Each server response is a
 * parameter: `None` stands for a rejected request, which makes the action
 * throw at that point.
 */
module AuthContext {
  import opened Options
  import opened Seqs
  import opened Schemas
  import AuthController

  /** An element of the `/auth/saved-crops` response; only `_id` is read. */
  datatype SavedCropDoc = SavedCropDoc(id: string, name: string)

  /** The requests the provider issues, in order. */
  datatype ApiCall =
    | GetMe
    | GetSavedCrops
    | PostLogin(email: string, password: string)
    | PostRegister(data: AuthController.RegisterRequest)
    | PostLogout
    | PostSaveCrop(cropId: string)
    | PostSearchHistory(query: string)

  /** `saved.data.map((c) => c._id)`. */
  function Ids(docs: seq<SavedCropDoc>): (r: seq<string>)
    ensures |r| == |docs|
    ensures forall i :: 0 <= i < |docs| ==> r[i] == docs[i].id
  {
    if docs == [] then [] else [docs[0].id] + Ids(docs[1..])
  }

  /**
   * The client's update of its list after the server answered `saved`:
   * appended at the end when saved, every occurrence removed otherwise.
   */
  function ClientToggle(prev: seq<string>, cropId: string, saved: bool): (r: seq<string>)
    ensures saved ==> r == prev + [cropId]
    ensures !saved ==> cropId !in r
    ensures !saved ==> forall y :: y != cropId ==> multiset(r)[y] == multiset(prev)[y]
    ensures !saved ==> r == Filter(id => id != cropId, prev)
  {
    if saved then prev + [cropId] else Filter(id => id != cropId, prev)
  }

  /**
   * When the client's list equals the server's, the client's update after the
   * server's reply is the server's own toggle: the two lists stay equal.
   */
  lemma ClientMirrorsServer(s: seq<string>, cropId: string)
    ensures ClientToggle(s, cropId, cropId !in s) == AuthController.Toggle(s, cropId)
  {
  }

  class AuthProvider {
    var user: Option<Account>
    var loading: bool
    var savedCrops: seq<string>
    /** Every request sent so far. */
    var requests: seq<ApiCall>

    /** The initial state, before the mount effect runs. */
    constructor ()
      ensures user == None && loading && savedCrops == [] && requests == []
    {
      user := None;
      loading := true;
      savedCrops := [];
      requests := [];
    }

    /**
     * The mount effect `fetchMe`: `/auth/me`, then `/auth/saved-crops`. Any
     * failure leaves no user; `loading` ends false on every outcome.
     */
    method FetchMe(me: Option<Account>, saved: Option<seq<SavedCropDoc>>)
      modifies this
      ensures !loading
      ensures me.None? ==> requests == old(requests) + [GetMe]
      ensures me.Some? ==> requests == old(requests) + [GetMe, GetSavedCrops]
      ensures me.Some? && saved.Some? ==> user == me && savedCrops == Ids(saved.value)
      ensures me.None? || saved.None? ==> user == None && savedCrops == old(savedCrops)
    {
      requests := requests + [GetMe];
      if me.None? {
        user := None;
      } else {
        user := me;
        requests := requests + [GetSavedCrops];
        if saved.None? {
          user := None;
        } else {
          savedCrops := Ids(saved.value);
        }
      }
      loading := false;
    }

    /**
     * `login`: a rejected post changes nothing; a rejected saved-crops fetch
     * sets the user and leaves the list as it was; `ok` is whether the action
     * resolved.
     */
    method Login(email: string, password: string, res: Option<Account>, saved: Option<seq<SavedCropDoc>>)
      returns (ok: bool)
      modifies this
      ensures loading == old(loading)
      ensures ok <==> res.Some? && saved.Some?
      ensures res.None? ==>
        (user == old(user) && savedCrops == old(savedCrops)
         && requests == old(requests) + [PostLogin(email, password)])
      ensures res.Some? ==>
        (user == res && requests == old(requests) + [PostLogin(email, password), GetSavedCrops])
      ensures res.Some? && saved.Some? ==> savedCrops == Ids(saved.value)
      ensures res.Some? && saved.None? ==> savedCrops == old(savedCrops)
    {
      requests := requests + [PostLogin(email, password)];
      if res.None? {
        return false;
      }
      user := res;
      requests := requests + [GetSavedCrops];
      if saved.None? {
        return false;
      }
      savedCrops := Ids(saved.value);
      ok := true;
    }

    /** `register`: the returned account becomes the user; the saved list is not touched. */
    method Register(data: AuthController.RegisterRequest, res: Option<Account>) returns (ok: bool)
      modifies this
      ensures ok <==> res.Some?
      ensures requests == old(requests) + [PostRegister(data)]
      ensures savedCrops == old(savedCrops) && loading == old(loading)
      ensures user == if res.Some? then res else old(user)
    {
      requests := requests + [PostRegister(data)];
      if res.None? {
        return false;
      }
      user := res;
      ok := true;
    }

    /** `logout`: once the post resolves, no user and no saved crops. */
    method Logout(accepted: bool) returns (ok: bool)
      modifies this
      ensures ok == accepted
      ensures requests == old(requests) + [PostLogout]
      ensures loading == old(loading)
      ensures accepted ==> user == None && savedCrops == []
      ensures !accepted ==> user == old(user) && savedCrops == old(savedCrops)
    {
      requests := requests + [PostLogout];
      if !accepted {
        return false;
      }
      user := None;
      savedCrops := [];
      ok := true;
    }

    /**
     * `toggleSaveCrop`: without a user nothing is sent and nothing changes;
     * otherwise the list follows the server's `saved` answer.
     */
    method ToggleSaveCrop(cropId: string, saved: Option<bool>)
      modifies this
      ensures user == old(user) && loading == old(loading)
      ensures old(user).None? ==> requests == old(requests) && savedCrops == old(savedCrops)
      ensures old(user).Some? ==> requests == old(requests) + [PostSaveCrop(cropId)]
      ensures old(user).Some? && saved.Some? ==> savedCrops == ClientToggle(old(savedCrops), cropId, saved.value)
      ensures saved.None? ==> savedCrops == old(savedCrops)
    {
      if user.None? {
        return;
      }
      requests := requests + [PostSaveCrop(cropId)];
      if saved.Some? {
        savedCrops := ClientToggle(savedCrops, cropId, saved.value);
      }
    }

    /** `addToSearchHistory`: a post when logged in, nothing otherwise; no state changes. */
    method AddToSearchHistory(query: string)
      modifies this
      ensures user == old(user) && savedCrops == old(savedCrops) && loading == old(loading)
      ensures requests == old(requests) + (if old(user).Some? then [PostSearchHistory(query)] else [])
    {
      if user.Some? {
        requests := requests + [PostSearchHistory(query)];
      }
    }
  }

  /**
   * A logged-out provider sends nothing for save or search actions: after a
   * failed `/auth/me` only that one request was issued.
   */
  method LoggedOutSendsNothing(cropId: string, query: string) returns (sent: seq<ApiCall>, crops: seq<string>)
    ensures sent == [GetMe] && crops == []
  {
    var p := new AuthProvider();
    p.FetchMe(None, None);
    p.ToggleSaveCrop(cropId, Some(true));
    p.AddToSearchHistory(query);
    sent := p.requests;
    crops := p.savedCrops;
  }

  /**
   * Saving twice with a server that answers `saved` both times leaves a
   * duplicate on the client, since the client does not deduplicate.
   */
  method DoubleSaveDuplicates(me: Account, cropId: string) returns (crops: seq<string>)
    ensures crops == [cropId, cropId]
  {
    var p := new AuthProvider();
    p.FetchMe(Some(me), Some([]));
    assert Ids([]) == [];
    p.ToggleSaveCrop(cropId, Some(true));
    p.ToggleSaveCrop(cropId, Some(true));
    crops := p.savedCrops;
  }
}
