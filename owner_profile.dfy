/** The owner's profile page (app/owner/profile/page.tsx): picture upload and logout. */
module OwnerProfile {
  import opened Wrappers
  import opened Json
  import opened Types
  import opened Toasts
  import opened Pages
  import opened Session

  /** Everything the owner's logout removes from `localStorage`. */
  const LogoutKeys: set<string> := {"auth_token", "auth_user", "userRole", "cafeName", "cafeAddress", "tableId"}

  class OwnerProfilePage {
    const storage: LocalStorage
    var user: Option<User>
    var cafeName: string
    var cafeAddress: string
    var uploading: bool

    /**
     * The mount effect. `JSON.parse` throws on a stored user that is not JSON
     * text, which abandons the rest of the effect, so the cafe fields then keep
     * their empty defaults; any JSON text lets them load, and whenever a user is
     * read the text was JSON.
     */
    constructor (storage: LocalStorage)
      ensures this.storage == storage && !uploading
      ensures var raw := TruthyItem(storage.GetItem("auth_user"));
              user == (if raw.Some? then ParseUser(raw.value) else None)
              && (raw.None? || IsJsonText(raw.value) ==>
                    cafeName == storage.GetItem("cafeName").GetOr("")
                    && cafeAddress == storage.GetItem("cafeAddress").GetOr(""))
              && (raw.Some? && !IsJsonText(raw.value) ==> cafeName == "" && cafeAddress == "")
      ensures user.Some? ==>
                cafeName == storage.GetItem("cafeName").GetOr("") && cafeAddress == storage.GetItem("cafeAddress").GetOr("")
    {
      this.storage := storage;
      cafeName, cafeAddress, uploading := "", "", false;
      var raw := TruthyItem(storage.GetItem("auth_user"));
      var stored := if raw.Some? then ParseUser(raw.value) else None;
      user := stored;
      if stored.Some? {
        ParsedUserIsJsonText(raw.value);
      }
      if raw.None? || IsJsonText(raw.value) {
        cafeName := storage.GetItem("cafeName").GetOr("");
        cafeAddress := storage.GetItem("cafeAddress").GetOr("");
      }
    }

    /**
     * `handleUpload`, reachable once the user has loaded and while no upload
     * runs: a success replaces the picture and stores the updated user; a
     * failure changes neither; either way the upload ends.
     */
    method HandleUpload(outcome: ClientOutcome) returns (n: Notice)
      requires user.Some? && !uploading
      modifies this`user, this`uploading, storage
      ensures !uploading && n == UploadNotice(outcome)
      ensures UploadedPicture(outcome).Some? ==>
                user == UploadedUser(old(user).value, outcome)
                && storage.items == old(storage.items)["auth_user" := SerializeUser(user.value)]
      ensures UploadedPicture(outcome).None? ==> user == old(user) && storage.items == old(storage.items)
    {
      uploading := true;
      var updated := UploadedUser(user.value, outcome);
      if updated.Some? {
        user := updated;
        storage.SetItem("auth_user", SerializeUser(updated.value));
      }
      n := UploadNotice(outcome);
      uploading := false;
    }

    /**
     * `handleLogout`: the six keys go, every other key stays. Its
     * `document.cookie` write is `Cookies.ClientLogout`, which leaves the
     * HttpOnly token in place (`Cookies.ClientLogoutKeepsToken`).
     */
    method HandleLogout()
      modifies storage
      ensures storage.items == old(storage.items) - LogoutKeys
    {
      storage.RemoveItem("auth_token");
      storage.RemoveItem("auth_user");
      storage.RemoveItem("userRole");
      storage.RemoveItem("cafeName");
      storage.RemoveItem("cafeAddress");
      storage.RemoveItem("tableId");
    }
  }
}
