/** The customer's profile page (app/customer/profile/page.tsx): picture upload, table reset and logout. */
module CustomerProfile {
  import opened Wrappers
  import opened Types
  import opened Toasts
  import opened Pages
  import opened Session
  import OwnerProfile

  /** Everything the customer's logout removes from `localStorage`. */
  const LogoutKeys: set<string> := {"auth_token", "auth_user", "userRole", "tableId"}

  /** The customer's logout is the owner's without the cafe details. */
  lemma LogoutKeepsCafeDetails()
    ensures OwnerProfile.LogoutKeys == LogoutKeys + {"cafeName", "cafeAddress"}
    ensures "cafeName" !in LogoutKeys && "cafeAddress" !in LogoutKeys
  {
  }

  class CustomerProfilePage {
    const storage: LocalStorage
    var user: Option<User>
    var uploading: bool

    constructor (storage: LocalStorage)
      ensures this.storage == storage && !uploading
      ensures var raw := TruthyItem(storage.GetItem("auth_user"));
              user == (if raw.Some? then ParseUser(raw.value) else None)
    {
      this.storage := storage;
      var raw := TruthyItem(storage.GetItem("auth_user"));
      user := if raw.Some? then ParseUser(raw.value) else None;
      uploading := false;
    }

    /** `handleUpload`, as on the owner's page. */
    method HandleUpload(outcome: ClientOutcome) returns (n: Notice)
      requires user.Some? && !uploading
      modifies this`user, this`uploading, storage
      ensures !uploading && n == UploadNotice(outcome)
      ensures UploadedPicture(outcome).Some? ==>
                user == UploadedUser(old(user).value, outcome)
                && storage.items == old(storage.items)["auth_user" := SerializeUser(user.value)]
      ensures UploadedPicture(outcome).None? ==> user == old(user) && storage.items == old(storage.items)
    {
      uploading := true;
      var updated := UploadedUser(user.value, outcome);
      if updated.Some? {
        user := updated;
        storage.SetItem("auth_user", SerializeUser(updated.value));
      }
      n := UploadNotice(outcome);
      uploading := false;
    }

    /**
     * `handleLogout`: the four session keys go; the cafe details stay. Its
     * `document.cookie` write is `Cookies.ClientLogout`, which leaves the
     * HttpOnly token in place (`Cookies.ClientLogoutKeepsToken`).
     */
    method HandleLogout()
      modifies storage
      ensures storage.items == old(storage.items) - LogoutKeys
    {
      storage.RemoveItem("auth_token");
      storage.RemoveItem("auth_user");
      storage.RemoveItem("userRole");
      storage.RemoveItem("tableId");
    }

    /** `resetTable`: only the table number goes. */
    method ResetTable() returns (n: Notice)
      modifies storage
      ensures storage.items == old(storage.items) - {"tableId"}
      ensures n == Notice("Table number reset", Info)
    {
      storage.RemoveItem("tableId");
      n := Notice("Table number reset", Info);
    }
  }
}
