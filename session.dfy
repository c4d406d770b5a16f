/**
 * The browser-side session the profile and customer pages keep: `localStorage`
 * as a map from keys to strings, the stored `auth_user` record, and the outcome
 * of a profile-picture upload.
 */
module Session {
  import opened Wrappers
  import opened Text
  import opened Json
  import opened Types
  import opened Toasts
  import opened Pages

  /** `window.localStorage`. */
  class LocalStorage {
    var items: map<string, string>

    constructor (items: map<string, string>)
      ensures this.items == items
    {
      this.items := items;
    }

    /** `getItem(key)`: null when the key is absent. */
    function GetItem(key: string): (v: Option<string>)
      reads this
      ensures v.Some? <==> key in items
      ensures v.Some? ==> v.value == items[key]
    {
      if key in items then Some(items[key]) else None
    }

    method SetItem(key: string, value: string)
      modifies this
      ensures items == old(items)[key := value]
    {
      items := items[key := value];
    }

    method RemoveItem(key: string)
      modifies this
      ensures items == old(items) - {key}
    {
      items := items - {key};
    }
  }

  /** A stored value that `if (stored)` accepts: present and not the empty string. */
  function TruthyItem(v: Option<string>): (r: Option<string>)
    ensures r.Some? <==> v.Some? && v.value != ""
    ensures r.Some? ==> r == v
  {
    if v.Some? && v.value != "" then v else None
  }

  /** `null` or a string literal. */
  function Nullable(v: Option<string>): string {
    if v.Some? then Quote(v.value) else "null"
  }

  /** An absent `token` is left out of the object altogether. */
  function TokenMember(token: Option<string>): string {
    if token.Some? then ",\"token\":" + Quote(token.value) else ""
  }

  /** What follows `lit` at the start of `s`, if `s` starts with it. */
  function Expect(s: string, lit: string): (r: Option<string>)
    ensures r.Some? <==> StartsWith(s, lit)
    ensures r.Some? ==> lit + r.value == s
  {
    if StartsWith(s, lit) then Some(s[|lit|..]) else None
  }

  lemma ExpectLiteral(lit: string, rest: string)
    ensures Expect(lit + rest, lit) == Some(rest)
  {
    assert (lit + rest)[..|lit|] == lit;
    assert (lit + rest)[|lit|..] == rest;
  }

  /** A member's key (with its separator) followed by a string value. */
  function ReadMember(s: string, key: string): Option<(string, string)> {
    var after := Expect(s, key);
    if after.None? then None else ReadQuoted(after.value)
  }

  lemma ReadMemberRoundTrip(key: string, v: string, rest: string)
    ensures ReadMember(key + Quote(v) + rest, key) == Some((v, rest))
  {
    assert key + Quote(v) + rest == key + (Quote(v) + rest);
    ExpectLiteral(key, Quote(v) + rest);
    ReadQuotedRoundTrip(v, rest);
  }

  /** `null` or a string literal. */
  function ReadNullable(s: string): Option<(Option<string>, string)> {
    var n := Expect(s, "null");
    if n.Some? then Some((None, n.value))
    else
      var q := ReadQuoted(s);
      if q.None? then None else Some((Some(q.value.0), q.value.1))
  }

  lemma ReadNullableRoundTrip(v: Option<string>, rest: string)
    ensures ReadNullable(Nullable(v) + rest) == Some((v, rest))
  {
    if v.Some? {
      ReadQuotedRoundTrip(v.value, rest);
      assert (Nullable(v) + rest)[0] == '"';
    } else {
      ExpectLiteral("null", rest);
    }
  }

  function RoleFromName(name: string): (r: Option<UserRole>)
    ensures r.Some? ==> RoleName(r.value) == name
  {
    if name == "customer" then Some(Customer)
    else if name == "owner" then Some(Owner)
    else None
  }

  /** The optional `token` member and the closing brace, which must end the text. */
  function ReadTokenAndClose(s: string): Option<Option<string>> {
    if s == "}" then Some(None)
    else
      var t := ReadMember(s, ",\"token\":");
      if t.Some? && t.value.1 == "}" then Some(Some(t.value.0)) else None
  }

  /** The string-valued members in front of the picture, as keys with their separators. */
  const TextKeys: seq<string> :=
    ["{\"_id\":", ",\"fullName\":", ",\"username\":", ",\"email\":", ",\"phoneNumber\":"]

  /** Keys, each followed by its string value. */
  function Members(keys: seq<string>, values: seq<string>): string
    requires |keys| == |values|
  {
    if keys == [] then "" else keys[0] + Quote(values[0]) + Members(keys[1..], values[1..])
  }

  /** Reads back the values of `Members(keys, ...)` and what follows them. */
  function ReadMembers(s: string, keys: seq<string>): (r: Option<(seq<string>, string)>)
    ensures r.Some? ==> |r.value.0| == |keys|
    decreases |keys|
  {
    if keys == [] then Some(([], s))
    else
      var first := ReadMember(s, keys[0]);
      if first.None? then None
      else
        var more := ReadMembers(first.value.1, keys[1..]);
        if more.None? then None else Some(([first.value.0] + more.value.0, more.value.1))
  }

  lemma {:induction false} ReadMembersRoundTrip(keys: seq<string>, values: seq<string>, rest: string)
    requires |keys| == |values|
    ensures ReadMembers(Members(keys, values) + rest, keys) == Some((values, rest))
    decreases |keys|
  {
    if keys != [] {
      var tail := Members(keys[1..], values[1..]) + rest;
      assert Members(keys, values) + rest == keys[0] + Quote(values[0]) + tail;
      ReadMemberRoundTrip(keys[0], values[0], tail);
      ReadMembersRoundTrip(keys[1..], values[1..], rest);
      assert [values[0]] + values[1..] == values;
    } else {
      assert Members(keys, values) + rest == rest;
      assert values == [];
    }
  }

  /** `JSON.stringify(user)`, with the members in the order lib/types.ts declares them. */
  function SerializeUser(u: User): string {
    Members(TextKeys, [u.id, u.fullName, u.username, u.email, u.phoneNumber])
    + (",\"profilePicture\":" + Nullable(u.profilePicture)
    + (",\"role\":" + Quote(RoleName(u.role))
    + (TokenMember(u.token) + "}")))
  }

  /** The role member, the optional token member and the closing brace. */
  function ReadRoleAndToken(s: string): Option<(UserRole, Option<string>)> {
    var role := ReadMember(s, ",\"role\":");
    if role.None? || RoleFromName(role.value.0).None? then None else
    var token := ReadTokenAndClose(role.value.1);
    if token.None? then None else
    Some((RoleFromName(role.value.0).value, token.value))
  }

  /** The members after the text members: the picture, the role, the optional token and the closing brace. */
  function ReadTail(s: string): Option<(Option<string>, UserRole, Option<string>)> {
    var picKey := Expect(s, ",\"profilePicture\":");
    if picKey.None? then None else
    var pic := ReadNullable(picKey.value);
    if pic.None? then None else
    var rt := ReadRoleAndToken(pic.value.1);
    if rt.None? then None else
    Some((pic.value.0, rt.value.0, rt.value.1))
  }

  /**
   * `JSON.parse` of a stored `auth_user`, for the member layout `SerializeUser`
   * writes; any other text reads as no user.
   */
  function ParseUser(s: string): Option<User> {
    var text := ReadMembers(s, TextKeys);
    if text.None? then None else
    var tail := ReadTail(text.value.1);
    if tail.None? then None else
    var v := text.value.0;
    Some(User(v[0], v[1], v[2], v[3], v[4], tail.value.0, tail.value.1, tail.value.2))
  }

  lemma ReadTokenRoundTrip(token: Option<string>)
    ensures ReadTokenAndClose(TokenMember(token) + "}") == Some(token)
  {
    if token.Some? {
      ReadMemberRoundTrip(",\"token\":", token.value, "}");
    } else {
      assert TokenMember(token) + "}" == "}";
    }
  }

  lemma ReadRoleAndTokenRoundTrip(role: UserRole, token: Option<string>)
    ensures ReadRoleAndToken(",\"role\":" + Quote(RoleName(role)) + (TokenMember(token) + "}")) == Some((role, token))
  {
    ReadMemberRoundTrip(",\"role\":", RoleName(role), TokenMember(token) + "}");
    ReadTokenRoundTrip(token);
    assert RoleFromName(RoleName(role)) == Some(role);
  }

  lemma ReadTailRoundTrip(picture: Option<string>, rest: string)
    requires ReadRoleAndToken(rest).Some?
    ensures ReadTail(",\"profilePicture\":" + Nullable(picture) + rest)
            == Some((picture, ReadRoleAndToken(rest).value.0, ReadRoleAndToken(rest).value.1))
  {
    var key := ",\"profilePicture\":";
    var after := Nullable(picture) + rest;
    assert key + Nullable(picture) + rest == key + after;
    ExpectLiteral(key, after);
    ReadNullableRoundTrip(picture, rest);
    assert ReadNullable(after) == Some((picture, rest));
  }

  /** A stored user reads back as the same user: what an upload writes is what the next visit loads. */
  lemma ParseSerializedUser(u: User)
    ensures ParseUser(SerializeUser(u)) == Some(u)
  {
    var values := [u.id, u.fullName, u.username, u.email, u.phoneNumber];
    var tail := ",\"profilePicture\":" + Nullable(u.profilePicture)
                + (",\"role\":" + Quote(RoleName(u.role)) + (TokenMember(u.token) + "}"));
    ReadMembersRoundTrip(TextKeys, values, tail);
    ReadRoleAndTokenRoundTrip(u.role, u.token);
    ReadTailRoundTrip(u.profilePicture, ",\"role\":" + Quote(RoleName(u.role)) + (TokenMember(u.token) + "}"));
  }

  /** Different users are stored as different text. */
  lemma SerializeUserInjective(u: User, v: User)
    requires SerializeUser(u) == SerializeUser(v)
    ensures u == v
  {
    ParseSerializedUser(u);
    ParseSerializedUser(v);
  }

  /** The keys `ParseUser` expects are member keys, and all but the first follow a comma. */
  lemma TextKeysAreMemberKeys()
    ensures forall i | 0 <= i < |TextKeys| :: IsMemberKey(TextKeys[i])
    ensures forall i | 1 <= i < |TextKeys| :: TextKeys[i] != [] && TextKeys[i][0] == ','
  {
  }

  /** At a comma-led member key, reading the object goes on with that member. */
  lemma NextKeyedMember(s: string, key: string)
    requires IsMemberKey(key) && key[0] == ',' && Expect(s, key).Some?
    ensures s != [] && s[0] == ',' && NextMember(s) == SkipMembers(s[1..])
  {
    assert s[..|key|] == key;
    assert s[1] == '"';
    SkipNoSpace(s[1..]);
  }

  /** A member `ReadMember` reads is read past as JSON too, up to the separator after it. */
  lemma SkipReadMember(s: string, key: string, rest: string)
    requires IsMemberKey(key)
    requires ReadMember(s, key).Some? && ReadMember(s, key).value.1 == rest
    requires rest != [] && (rest[0] == ',' || rest[0] == '}')
    ensures SkipMembers(s[1..]) == NextMember(rest)
  {
    var value := Expect(s, key).value;
    assert s == key + value;
    assert value[0] == '"';
    assert SkipValue(value) == Some(rest);
    SkipKeyedMember(key, value, rest);
  }

  /** `null` or a string literal that `ReadNullable` reads is a JSON value. */
  lemma SkipReadNullable(s: string)
    requires ReadNullable(s).Some?
    ensures s != [] && !IsJsonSpace(s[0]) && SkipValue(s) == Some(ReadNullable(s).value.1)
  {
    if Expect(s, "null").Some? {
      assert s[..4] == "null";
      assert s[0] == 'n';
      assert !StartsWith(s, "true") by {
        assert s[..4] != "true" by { assert s[..4][0] != "true"[0]; }
      }
      assert !StartsWith(s, "false") by {
        if |s| >= 5 { assert s[..5][0] == s[0]; }
      }
    }
  }

  /** A run of string members that `ReadMembers` reads is read past as JSON too. */
  lemma {:induction false} SkipReadMembers(s: string, keys: seq<string>, rest: string)
    requires keys != []
    requires forall i | 0 <= i < |keys| :: IsMemberKey(keys[i])
    requires forall i | 1 <= i < |keys| :: keys[i] != [] && keys[i][0] == ','
    requires ReadMembers(s, keys).Some? && ReadMembers(s, keys).value.1 == rest
    requires rest != [] && (rest[0] == ',' || rest[0] == '}')
    ensures SkipMembers(s[1..]) == NextMember(rest)
    decreases |keys|
  {
    var next := ReadMember(s, keys[0]).value.1;
    if |keys| == 1 {
      SkipReadMember(s, keys[0], rest);
    } else {
      assert ReadMember(next, keys[1..][0]).Some?;
      NextKeyedMember(next, keys[1]);
      SkipReadMember(s, keys[0], next);
      SkipReadMembers(next, keys[1..], rest);
    }
  }

  /** The optional token member and the closing brace end the object. */
  lemma SkipTokenAndClose(s: string)
    requires ReadTokenAndClose(s).Some?
    ensures s != [] && (s[0] == ',' || s[0] == '}') && NextMember(s) == Some([])
  {
    if s != "}" {
      var key := ",\"token\":";
      assert IsMemberKey(key);
      NextKeyedMember(s, key);
      SkipReadMember(s, key, "}");
    }
  }

  /** The role member and what follows it end the object. */
  lemma SkipRoleAndToken(s: string)
    requires ReadRoleAndToken(s).Some?
    ensures s != [] && s[0] == ',' && NextMember(s) == Some([])
  {
    var key := ",\"role\":";
    assert IsMemberKey(key);
    var rest := ReadMember(s, key).value.1;
    SkipTokenAndClose(rest);
    SkipReadMember(s, key, rest);
    NextKeyedMember(s, key);
  }

  /** The picture member and what follows it end the object. */
  lemma SkipTail(s: string)
    requires ReadTail(s).Some?
    ensures s != [] && s[0] == ',' && NextMember(s) == Some([])
  {
    var key := ",\"profilePicture\":";
    assert IsMemberKey(key);
    var value := Expect(s, key).value;
    var rest := ReadNullable(value).value.1;
    SkipRoleAndToken(rest);
    SkipReadNullable(value);
    assert s == key + value;
    SkipKeyedMember(key, value, rest);
    NextKeyedMember(s, key);
  }

  /**
   * Any text the page reads a user from is JSON text: where the model finds a
   * user, `JSON.parse` succeeds as well.
   */
  lemma ParsedUserIsJsonText(s: string)
    requires ParseUser(s).Some?
    ensures IsJsonText(s)
  {
    var rest := ReadMembers(s, TextKeys).value.1;
    assert SkipMembers(s[1..]) == Some([]) by {
      SkipTail(rest);
      TextKeysAreMemberKeys();
      SkipReadMembers(s, TextKeys, rest);
    }
    assert |s| >= 2 && s[0] == '{' && s[1] == '"' by {
      assert StartsWith(s, TextKeys[0]);
      assert s[..|TextKeys[0]|] == TextKeys[0];
    }
    SkipObject(s);
  }

  /** What an upload stores is JSON text. */
  lemma StoredUserIsJsonText(u: User)
    ensures IsJsonText(SerializeUser(u))
  {
    ParseSerializedUser(u);
    ParsedUserIsJsonText(SerializeUser(u));
  }

  /** `data?.data?.profilePicture`. */
  function PictureIn(body: Json): Option<Json> {
    MemberOf(Member(body, "data"), "profilePicture")
  }

  /**
   * The picture an upload installs: only when the route answered ok and
   * `data.data.profilePicture` is a non-empty string.
   */
  function UploadedPicture(outcome: ClientOutcome): (p: Option<string>)
    ensures p.Some? ==> outcome.Answered? && outcome.ok && PictureIn(outcome.body) == Some(JStr(p.value)) && p.value != ""
    ensures outcome.Answered? && outcome.ok && PictureIn(outcome.body).Some? ==>
              (PictureIn(outcome.body).value.JStr? && PictureIn(outcome.body).value.s != "" ==> p.Some?)
  {
    if outcome.Answered? && outcome.ok then
      match PictureIn(outcome.body)
      case Some(JStr(pic)) => if pic != "" then Some(pic) else None
      case _ => None
    else None
  }

  /** The toast an upload ends with. */
  function UploadNotice(outcome: ClientOutcome): (n: Notice)
    ensures UploadedPicture(outcome).Some? ==> n == Notice("Profile picture updated!", Success)
    ensures UploadedPicture(outcome).None? && outcome.Answered? ==> n == Notice(NoticeText(outcome.body, "Upload failed"), Error)
    ensures outcome.Threw? ==> n == Notice("Upload failed", Error)
  {
    if UploadedPicture(outcome).Some? then Notice("Profile picture updated!", Success)
    else if outcome.Threw? then Notice("Upload failed", Error)
    else Notice(NoticeText(outcome.body, "Upload failed"), Error)
  }

  /** A refused upload shows the route's message when it has one. */
  lemma RefusedUploadShowsMessage(status: bool, data: map<string, Json>, message: string)
    requires "message" in data && data["message"] == JStr(message)
    requires !status || "data" !in data
    ensures UploadNotice(Answered(status, JObj(data))) == Notice(message, Error)
  {
  }

  /** `{ ...user!, profilePicture: data.data.profilePicture }` after a successful upload; None when the upload failed. */
  function UploadedUser(user: User, outcome: ClientOutcome): (u: Option<User>)
    ensures u.Some? <==> UploadedPicture(outcome).Some?
    ensures u.Some? ==> u.value == user.(profilePicture := UploadedPicture(outcome))
  {
    var pic := UploadedPicture(outcome);
    if pic.Some? then Some(user.(profilePicture := pic)) else None
  }

  /** An upload changes the picture and nothing else about the user, and what is stored reads back as the new user. */
  lemma UploadChangesOnlyPicture(user: User, outcome: ClientOutcome)
    requires UploadedUser(user, outcome).Some?
    ensures var u := UploadedUser(user, outcome).value;
            u.profilePicture.Some? && u.profilePicture.value != ""
            && u.(profilePicture := user.profilePicture) == user
            && ParseUser(SerializeUser(u)) == Some(u)
  {
    ParseSerializedUser(UploadedUser(user, outcome).value);
  }
}
