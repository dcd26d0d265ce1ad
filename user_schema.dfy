/** The `User` document of src/schemas/user.schema.ts: its fields, the
    defaults and lower-casing applied when a document is created, the
    validators `save` runs, and `createPasswordResetToken`. */
module UserSchema {
  import opened Common

  const DefaultImage := "default.jpg"
  const NameMaxLength := 20
  /** Ten minutes in milliseconds: how long a password-reset stamp lasts. */
  const ResetTokenLifetime := 10 * 60 * 1000

  /** A stored user. `None` stands for a field that is `undefined`. */
  datatype User = User(
    id: Id,
    name: string,
    email: string,
    image: string,
    bio: Option<string>,
    password: string,
    confirmPassword: string,
    friends: seq<Id>,
    resetPasswordToken: Option<string>,
    resetPasswordExpires: Option<int>,
    loginAttempts: int)

  /** The fields a caller passes to `new this.userModel(...)`. A missing
      string is the empty string; a missing image is `None`. */
  datatype UserDraft = UserDraft(
    name: string,
    email: string,
    image: Option<string>,
    password: string,
    confirmPassword: string)

  /** The document Mongoose builds from a draft: the `lowercase` setters
      run on name and email, and the declared defaults fill the rest. */
  function NewUser(id: Id, d: UserDraft): (u: User)
    ensures u.id == id && u.password == d.password && u.confirmPassword == d.confirmPassword
    ensures u.name == Lower(d.name) && u.email == Lower(d.email)
    ensures d.image.None? ==> u.image == "default.jpg"
    ensures d.image.Some? ==> u.image == d.image.value
    ensures u.friends == [] && u.loginAttempts == 0
    ensures u.bio.None? && u.resetPasswordToken.None? && u.resetPasswordExpires.None?
  {
    User(id, Lower(d.name), Lower(d.email),
         match d.image case Some(i) => i case None => DefaultImage,
         None, d.password, d.confirmPassword, [], None, None, 0)
  }

  predicate IsEnUsLetter(c: char) { 'a' <= c <= 'z' || 'A' <= c <= 'Z' }

  /** `s` with every space removed: the `ignore: ' '` step of
      `validator.isAlpha`. */
  function RemoveSpaces(s: string): (r: string)
    ensures forall c :: c in r <==> c in s && c != ' '
  {
    if |s| == 0 then []
    else
      assert s == [s[0]] + s[1..];
      (if s[0] == ' ' then [] else [s[0]]) + RemoveSpaces(s[1..])
  }

  /** `validator.isAlpha(val, 'en-US', { ignore: ' ' })`: once the spaces
      are removed, what is left matches `/^[A-Z]+$/i`. That is the same as
      `s` holding at least one non-space and nothing but spaces and en-US
      letters. */
  function IsAlphaIgnoringSpaces(s: string): (b: bool)
    ensures b <==> (exists i :: 0 <= i < |s| && s[i] != ' ') &&
                   forall i :: 0 <= i < |s| ==> s[i] == ' ' || IsEnUsLetter(s[i])
  {
    var t := RemoveSpaces(s);
    assert |t| > 0 <==> exists i :: 0 <= i < |s| && s[i] != ' ' by {
      if |t| > 0 {
        assert t[0] in t;
        var i :| 0 <= i < |s| && s[i] == t[0];
      }
      if exists i :: 0 <= i < |s| && s[i] != ' ' {
        var i :| 0 <= i < |s| && s[i] != ' ';
        assert s[i] in t;
      }
    }
    assert (forall c :: c in t ==> IsEnUsLetter(c)) <==>
           forall i :: 0 <= i < |s| ==> s[i] == ' ' || IsEnUsLetter(s[i]) by {
      if forall c :: c in t ==> IsEnUsLetter(c) {
        forall i | 0 <= i < |s| && s[i] != ' ' ensures IsEnUsLetter(s[i]) {
          assert s[i] in t;
        }
      }
      if forall i :: 0 <= i < |s| ==> s[i] == ' ' || IsEnUsLetter(s[i]) {
        forall c | c in t ensures IsEnUsLetter(c) {
          var i :| 0 <= i < |s| && s[i] == c;
        }
      }
    }
    |t| > 0 && forall c :: c in t ==> IsEnUsLetter(c)
  }

  /** The `name` validators: `maxlength` 20 and the isAlpha check. */
  predicate NameRuleHolds(name: string)
  {
    |name| <= NameMaxLength && IsAlphaIgnoringSpaces(name)
  }

  /** The paths whose validators fail when `save` validates `u`, in schema
      order. `isEmail` is validator.isEmail. The password validator is a
      block-bodied arrow function whose result is discarded, so it returns
      `undefined`, which Mongoose counts as a pass: only `required` is
      enforced on the password. `isRequired` on name and email is not a
      Mongoose option, so neither field is required. */
  function ValidationErrors(u: User, isEmail: string -> bool): (paths: seq<string>)
    ensures "name" in paths <==> !(|u.name| <= 20 && IsAlphaIgnoringSpaces(u.name))
    ensures "email" in paths <==> !isEmail(u.email)
    ensures "password" in paths <==> u.password == ""
    ensures "confirmPassword" in paths <==> u.confirmPassword == "" || u.confirmPassword != u.password
    ensures forall p :: p in paths ==> p in ["name", "email", "password", "confirmPassword"]
  {
    (if NameRuleHolds(u.name) then [] else ["name"]) +
    (if isEmail(u.email) then [] else ["email"]) +
    (if u.password != "" then [] else ["password"]) +
    (if u.confirmPassword != "" && u.confirmPassword == u.password then [] else ["confirmPassword"])
  }

  /** A name stored through the `lowercase` setter that passes the name
      validators is lower-case, at most 20 characters, and made only of
      en-US letters and spaces. */
  lemma StoredNameShape(input: string)
    requires NameRuleHolds(Lower(input))
    ensures IsLower(Lower(input)) && |Lower(input)| <= 20
    ensures forall i :: 0 <= i < |input| ==> Lower(input)[i] == ' ' || 'a' <= Lower(input)[i] <= 'z'
  {
  }

  /** `UserSchema.methods.createPasswordResetToken`: stamps the token
      (produced by bcrypt, here a parameter) and an expiry ten minutes after
      `now` on the user, and returns the token. No other field changes. */
  function CreatePasswordResetToken(u: User, resetToken: string, now: int): (r: (User, string))
    ensures r.1 == resetToken
    ensures r.0.resetPasswordToken == Some(r.1)
    ensures r.0.resetPasswordExpires == Some(now + 600000)
    ensures r.0.(resetPasswordToken := u.resetPasswordToken,
                 resetPasswordExpires := u.resetPasswordExpires) == u
  {
    (u.(resetPasswordToken := Some(resetToken),
        resetPasswordExpires := Some(now + ResetTokenLifetime)),
     resetToken)
  }
}
