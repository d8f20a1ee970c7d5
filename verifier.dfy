/**
 * The email-verification module (index.js): a shared `options` object, a mail
 * transporter created from `options.transportOptions`, a collection of
 * temporary (pending) users, a collection of persistent users, and the mails
 * handed to the transporter.
 *
 * The Mongoose and nodemailer calls are abstracted: a store call that can fail
 * takes a boolean saying whether it succeeded, the random token is a
 * parameter, and sending a mail appends it to `outbox`. The source rethrows
 * every store error inside its callback; the model returns `Err(StoreError)`
 * at that step and keeps the changes of the steps before it.
 */
module EmailVerification {
  import opened Wrappers
  import opened Js
  import opened Template
  import opened Token
  import opened Store
  import opened Schema
  import Objects

  /** The default verification URL is this address followed by the marker. */
  const DefaultVerificationBase: string := "http://example.com/email-verification/"
  const DefaultVerificationURL: string := DefaultVerificationBase + Marker
  const DefaultHtml: string :=
    "<p>Please confirm your account by clicking <a href=\"${URL}\">this link</a>. If you are unable to do so, copy and "
    + "paste the following link into your browser:</p><p>${URL}</p>"
  const DefaultText: string :=
    "Please confirm your account by clicking the following link, or by copying and pasting it into your browser: ${URL}"
  /** The html and text of the confirmation mail. */
  const ConfirmedBody: string := "Your account has been confirmed."

  /** The initial value of the module's `options` object. */
  const DefaultOptions: map<string, Value> := map[
    "verificationURL" := Str(DefaultVerificationURL),
    "persistentUserModel" := Null,
    "tempUserModel" := Null,
    "tempUserCollection" := Str("temporary_users"),
    "hashPassword" := Bool(false),
    "transportOptions" := Obj(map[
      "service" := Str("Gmail"),
      "auth" := Obj(map["user" := Str("user@gmail.com"), "pass" := Str("password")])]),
    "mailOptions" := Obj(map[
      "from" := Str("Do Not Reply <user@gmail.com>"),
      "subject" := Str("Confirm your account"),
      "html" := Str(DefaultHtml),
      "text" := Str(DefaultText)]),
    "sendMailCallback" := Function]

  /** A mail handed to `transporter.sendMail`, with the transport options the transporter was created from. */
  datatype Sent = Sent(transport: Value, mail: map<string, Value>)

  /** What `confirmTempUser` achieves when no exception is thrown. */
  datatype Confirmation = NotFound | Confirmed(user: Record)

  /** `String(rec.GENERATED_VERIFYING_URL)`, the replacement the link is built with. */
  function TokenOf(rec: Record): string {
    if TokenField in rec then rec[TokenField] else "undefined"
  }

  /** The options `registerTempUser` needs to render its mail without throwing. */
  predicate MailReady(options: map<string, Value>) {
    && Get(options, "verificationURL").Str?
    && Get(options, "mailOptions").Obj?
    && Get(Get(options, "mailOptions").fields, "html").Str?
    && Get(Get(options, "mailOptions").fields, "text").Str?
  }

  /** The verification link for `rec`: the URL template with every marker replaced by the token. */
  function VerificationLink(options: map<string, Value>, rec: Record): (link: string)
    requires Get(options, "verificationURL").Str?
    ensures TokenField in rec && IsToken(rec[TokenField]) ==>
      link == Join(Split(Get(options, "verificationURL").s), rec[TokenField])
    ensures TokenField !in rec && !HasMarker(Get(options, "verificationURL").s) ==>
      link == Get(options, "verificationURL").s
  {
    var template := Get(options, "verificationURL").s;
    if TokenField in rec && IsToken(rec[TokenField]) then
      TokenHasNoDollar(rec[TokenField]);
      ReplaceIsSplitJoin(template, rec[TokenField]);
      Replace(template, TokenOf(rec))
    else
      Replace(template, TokenOf(rec))
  }

  /**
   * With the default options, the link for a token is the default address
   * followed by the token: a token has no dollar sign, so the replacement is
   * taken literally, and the template holds a single marker, at its end.
   */
  lemma DefaultVerificationLink(rec: Record)
    requires TokenField in rec && IsToken(rec[TokenField])
    ensures VerificationLink(DefaultOptions, rec) == DefaultVerificationBase + rec[TokenField]
  {
    var token := rec[TokenField];
    TokenHasNoDollar(token);
    assert Get(DefaultOptions, "verificationURL") == Str(DefaultVerificationURL);
    ReplaceTrailingMarker(DefaultVerificationBase, token);
  }

  /**
   * `m` is the verification mail for `rec`: a copy of the mail options,
   * addressed to the user's email, whose html and text have every marker
   * replaced by the verification link.
   */
  ghost predicate IsVerificationMail(m: map<string, Value>, options: map<string, Value>, rec: Record)
    requires MailReady(options)
  {
    var base := Get(options, "mailOptions").fields;
    var link := VerificationLink(options, rec);
    && m.Keys == base.Keys + {"to"}
    && m["to"] == FromOption(Lookup(rec, EmailField))
    && m["html"] == Str(Replace(base["html"].s, link))
    && m["text"] == Str(Replace(base["text"].s, link))
    && forall k :: k in base && k != "to" && k != "html" && k != "text" ==> m[k] == base[k]
  }

  /**
   * `m` is the confirmation mail for `user`: a copy of the mail options,
   * addressed to the user's email, whose html and text are the fixed message.
   */
  ghost predicate IsConfirmationMail(m: map<string, Value>, options: map<string, Value>, user: Record)
    requires Get(options, "mailOptions").Obj?
  {
    var base := Get(options, "mailOptions").fields;
    && m.Keys == base.Keys + {"to", "html", "text"}
    && m["to"] == FromOption(Lookup(user, EmailField))
    && m["html"] == Str(ConfirmedBody)
    && m["text"] == Str(ConfirmedBody)
    && forall k :: k in base && k != "to" && k != "html" && k != "text" ==> m[k] == base[k]
  }

  /** The user `confirmTempUser(url)` saves: the first pending user holding the token, less the token field. */
  function PromotedUser(store: seq<Record>, url: string): Option<Record> {
    match FindOne(store, TokenField, Some(url))
    case None => None
    case Some(i) => Some(store[i] - {TokenField})
  }

  class Verifier {
    /** The module-level `options` object. */
    var options: map<string, Value>
    /** The transport options the current transporter was created from. */
    var transporter: Value
    /** The collection of the temporary user model. */
    var tempStore: seq<Record>
    /** The collection of the persistent user model. */
    var persistentStore: seq<Record>
    /** Every mail handed to the transporter, oldest first. */
    var outbox: seq<Sent>

    /**
     * The state when the module is loaded, over whatever documents the two
     * collections already hold.
     */
    constructor (pending: seq<Record>, persistent: seq<Record>)
      ensures options == DefaultOptions
      ensures transporter == Get(DefaultOptions, "transportOptions")
      ensures tempStore == pending && persistentStore == persistent && outbox == []
    {
      options := DefaultOptions;
      transporter := Get(DefaultOptions, "transportOptions");
      tempStore := pending;
      persistentStore := persistent;
      outbox := [];
    }

    /** `options.tempUserModel` is a model: generated, or predefined through `configure`. */
    predicate TempModelDefined()
      reads this
    {
      Get(options, "tempUserModel").Model?
    }

    predicate PersistentModelDefined()
      reads this
    {
      Get(options, "persistentUserModel").Model?
    }

    /** No two pending users share an email. */
    predicate UniquePending()
      reads this
    {
      UniqueEmails(tempStore)
    }

    /** No pending user has the email of `user`. */
    predicate EmailIsNew(user: Record)
      reads this
    {
      FindOne(tempStore, EmailField, Lookup(user, EmailField)).None?
    }

    /**
     * `configure(o)`: every property of `o` overwrites the option of that name,
     * the other options keep their values, and the transporter is created
     * anew from the resulting transport options.
     */
    method Configure(o: map<string, Value>)
      modifies this
      ensures options.Keys == old(options).Keys + o.Keys
      ensures forall k :: k in o ==> options[k] == o[k]
      ensures forall k :: k in old(options) && k !in o ==> options[k] == old(options)[k]
      ensures transporter == Get(options, "transportOptions")
      ensures tempStore == old(tempStore) && persistentStore == old(persistentStore) && outbox == old(outbox)
    {
      var todo := o.Keys;
      while todo != {}
        invariant todo <= o.Keys
        invariant options.Keys == old(options).Keys + (o.Keys - todo)
        invariant forall k :: k in o && k !in todo ==> options[k] == o[k]
        invariant forall k :: k in old(options) && (k !in o || k in todo) ==> options[k] == old(options)[k]
        invariant tempStore == old(tempStore) && persistentStore == old(persistentStore) && outbox == old(outbox)
        decreases todo
      {
        var key :| key in todo;
        options := options[key := o[key]];
        todo := todo - {key};
      }
      transporter := Get(options, "transportOptions");
    }

    /**
     * `generateTempUserModel(User)`: the temporary user model is registered
     * under the configured collection name, with the persistent schema plus
     * the token field, and stored as `options.tempUserModel`.
     */
    method GenerateTempUserModel(persistent: Schema)
      modifies this
      ensures options.Keys == old(options).Keys + {"tempUserModel"}
      ensures forall k :: k in old(options) && k != "tempUserModel" ==> options[k] == old(options)[k]
      ensures options["tempUserModel"].Model?
      ensures options["tempUserModel"].name == Get(old(options), "tempUserCollection")
      ensures options["tempUserModel"].schema.Keys == persistent.Keys + {TokenField}
      ensures options["tempUserModel"].schema[TokenField] == StringType
      ensures forall f :: f in persistent && f != TokenField ==> options["tempUserModel"].schema[f] == persistent[f]
      ensures TempModelDefined()
      ensures transporter == old(transporter) && tempStore == old(tempStore)
      ensures persistentStore == old(persistentStore) && outbox == old(outbox)
    {
      var temp := DeriveTempSchema(persistent);
      options := options["tempUserModel" := Model(Get(options, "tempUserCollection"), temp)];
    }

    /**
     * `createTempUser(user)`: without a temporary model it throws a TypeError;
     * if a pending user has the same email it yields null; otherwise it yields
     * a new temporary user holding every field of `user` and the token. It
     * changes nothing: the new user is not saved.
     */
    method CreateTempUser(user: Record, lookupOk: bool, token: string) returns (res: Result<Option<Record>>)
      requires IsToken(token)
      ensures !TempModelDefined() ==> res == Err(TypeError)
      ensures TempModelDefined() && !lookupOk ==> res == Err(StoreError)
      ensures TempModelDefined() && lookupOk ==>
        (res == Ok(None) <==> FindOne(tempStore, EmailField, Lookup(user, EmailField)).Some?)
      ensures TempModelDefined() && lookupOk && FindOne(tempStore, EmailField, Lookup(user, EmailField)).None? ==>
        && res.Ok? && res.value.Some?
        && res.value.value.Keys == user.Keys + {TokenField}
        && (forall f :: f in user && f != TokenField ==> res.value.value[f] == user[f])
        && res.value.value[TokenField] == token
    {
      if !TempModelDefined() {
        return Err(TypeError);
      }
      if !lookupOk {
        return Err(StoreError);
      }
      var existing := FindOne(tempStore, EmailField, Lookup(user, EmailField));
      if existing.Some? {
        return Ok(None);
      }
      var data := Objects.CopyFields(user);
      data := data[TokenField := token];
      return Ok(Some(data));
    }

    /**
     * `registerTempUser(newTempUser)`: saves the temporary user, then sends
     * the verification mail. A failed save changes nothing; options that
     * cannot be rendered throw after the save, so the user stays saved and no
     * mail goes out.
     */
    method RegisterTempUser(newTempUser: Record, saveOk: bool) returns (res: Result<()>)
      modifies this
      ensures options == old(options) && transporter == old(transporter)
      ensures persistentStore == old(persistentStore)
      ensures !saveOk ==> res == Err(StoreError) && tempStore == old(tempStore) && outbox == old(outbox)
      ensures saveOk ==> tempStore == old(tempStore) + [newTempUser]
      ensures saveOk && !Get(options, "verificationURL").Str? ==> res == Err(TypeError)
      ensures saveOk && Get(options, "verificationURL").Str? && CopyJson(Get(options, "mailOptions")).Err? ==>
        res == Err(CopyJson(Get(options, "mailOptions")).error)
      ensures saveOk && Get(options, "verificationURL").Str? && Get(options, "mailOptions").Obj? && !MailReady(options) ==>
        res == Err(TypeError)
      ensures res.Ok? <==> saveOk && MailReady(options)
      ensures res.Err? ==> outbox == old(outbox)
      ensures res.Ok? ==>
        && |outbox| == |old(outbox)| + 1
        && outbox[..|old(outbox)|] == old(outbox)
        && outbox[|old(outbox)|].transport == transporter
        && IsVerificationMail(outbox[|old(outbox)|].mail, options, newTempUser)
    {
      if !saveOk {
        return Err(StoreError);
      }
      tempStore := tempStore + [newTempUser];
      res := SendVerification(newTempUser);
    }

    /**
     * The verification mail to the saved temporary user `newTempUser`: the
     * link is rendered from the URL template, then the html and text of a copy
     * of the mail options are rendered with the link.
     */
    method SendVerification(newTempUser: Record) returns (res: Result<()>)
      modifies this
      ensures options == old(options) && transporter == old(transporter)
      ensures tempStore == old(tempStore) && persistentStore == old(persistentStore)
      ensures !Get(options, "verificationURL").Str? ==> res == Err(TypeError)
      ensures Get(options, "verificationURL").Str? && CopyJson(Get(options, "mailOptions")).Err? ==>
        res == Err(CopyJson(Get(options, "mailOptions")).error)
      ensures Get(options, "verificationURL").Str? && Get(options, "mailOptions").Obj? && !MailReady(options) ==>
        res == Err(TypeError)
      ensures res.Ok? <==> MailReady(options)
      ensures res.Err? ==> outbox == old(outbox)
      ensures res.Ok? ==>
        && |outbox| == |old(outbox)| + 1
        && outbox[..|old(outbox)|] == old(outbox)
        && outbox[|old(outbox)|].transport == transporter
        && IsVerificationMail(outbox[|old(outbox)|].mail, options, newTempUser)
    {
      var email := FromOption(Lookup(newTempUser, EmailField));
      var template := Get(options, "verificationURL");
      if !template.Str? {
        return Err(TypeError);
      }
      var url := Replace(template.s, TokenOf(newTempUser));
      var copy := CopyJson(Get(options, "mailOptions"));
      if copy.Err? {
        return Err(copy.error);
      }
      var mailOptions := copy.value;
      mailOptions := mailOptions["to" := email];
      var html := Get(mailOptions, "html");
      if !html.Str? {
        return Err(TypeError);
      }
      mailOptions := mailOptions["html" := Str(Replace(html.s, url))];
      var text := Get(mailOptions, "text");
      if !text.Str? {
        return Err(TypeError);
      }
      mailOptions := mailOptions["text" := Str(Replace(text.s, url))];
      outbox := outbox + [Sent(transporter, mailOptions)];
      return Ok(());
    }

    /**
     * `confirmTempUser(url)`: moves the pending user with token `url` to the
     * persistent collection without its token, then removes every pending
     * user with that token, then sends the confirmation mail. An unknown token
     * changes nothing; each failing step leaves the effects of the steps
     * before it, and only those.
     */
    method ConfirmTempUser(url: string, lookupOk: bool, saveOk: bool, removeOk: bool)
      returns (res: Result<Confirmation>)
      modifies this
      ensures options == old(options) && transporter == old(transporter)
      ensures !TempModelDefined() ==> res == Err(TypeError) && unchanged(this)
      ensures TempModelDefined() && !lookupOk ==> res == Err(StoreError) && unchanged(this)
      ensures TempModelDefined() && lookupOk && PromotedUser(old(tempStore), url).None? ==>
        res == Ok(NotFound) && unchanged(this)
      ensures TempModelDefined() && lookupOk && PromotedUser(old(tempStore), url).Some? ==>
        PromotedAs(PromotedUser(old(tempStore), url).value, url, saveOk, removeOk, res,
                   old(tempStore), old(persistentStore), old(outbox))
      ensures old(UniquePending()) ==> UniquePending()
    {
      if !TempModelDefined() {
        return Err(TypeError);
      }
      if !lookupOk {
        return Err(StoreError);
      }
      var found := FindOne(tempStore, TokenField, Some(url));
      if found.None? {
        return Ok(NotFound);
      }
      var userData := tempStore[found.value] - {TokenField};
      res := PromoteTempUser(userData, url, saveOk, removeOk);
    }

    /**
     * What follows the successful lookup in `confirmTempUser`: `user` was
     * found under the token `url`, and the state before was `temp0`,
     * `persistent0`, `outbox0`.
     */
    ghost predicate PromotedAs(user: Record, url: string, saveOk: bool, removeOk: bool, res: Result<Confirmation>,
                               temp0: seq<Record>, persistent0: seq<Record>, outbox0: seq<Sent>)
      reads this
    {
      && (!PersistentModelDefined() ==>
            res == Err(TypeError) && tempStore == temp0 && persistentStore == persistent0 && outbox == outbox0)
      && (PersistentModelDefined() && !saveOk ==>
            res == Err(StoreError) && tempStore == temp0 && persistentStore == persistent0 && outbox == outbox0)
      && (PersistentModelDefined() && saveOk ==> persistentStore == persistent0 + [user])
      && (PersistentModelDefined() && saveOk && !removeOk ==>
            res == Err(StoreError) && tempStore == temp0 && outbox == outbox0)
      && (PersistentModelDefined() && saveOk && removeOk ==>
            && tempStore == RemoveAll(temp0, TokenField, Some(url))
            && FindOne(tempStore, TokenField, Some(url)).None?)
      && (PersistentModelDefined() && saveOk && removeOk && CopyJson(Get(options, "mailOptions")).Err? ==>
            res == Err(CopyJson(Get(options, "mailOptions")).error) && outbox == outbox0)
      && (PersistentModelDefined() && saveOk && removeOk && Get(options, "mailOptions").Obj? ==>
            && res == Ok(Confirmed(user))
            && |outbox| == |outbox0| + 1
            && outbox[..|outbox0|] == outbox0
            && outbox[|outbox0|].transport == transporter
            && IsConfirmationMail(outbox[|outbox0|].mail, options, user))
    }

    /**
     * The persistent save of `user`, the removal of the pending users with
     * token `url`, and the confirmation mail, each started only when the step
     * before it succeeded.
     */
    method PromoteTempUser(user: Record, url: string, saveOk: bool, removeOk: bool) returns (res: Result<Confirmation>)
      modifies this
      ensures options == old(options) && transporter == old(transporter)
      ensures PromotedAs(user, url, saveOk, removeOk, res, old(tempStore), old(persistentStore), old(outbox))
      ensures old(UniquePending()) ==> UniquePending()
    {
      if !PersistentModelDefined() {
        return Err(TypeError);
      }
      if !saveOk {
        return Err(StoreError);
      }
      persistentStore := persistentStore + [user];
      if !removeOk {
        return Err(StoreError);
      }
      if UniquePending() {
        RemoveAllKeepsUnique(tempStore, TokenField, Some(url));
      }
      RemoveAllRemoves(tempStore, TokenField, Some(url));
      tempStore := RemoveAll(tempStore, TokenField, Some(url));
      res := SendConfirmation(user);
    }

    /** The confirmation mail to `user`, sent once the user has been promoted. */
    method SendConfirmation(user: Record) returns (res: Result<Confirmation>)
      modifies this
      ensures options == old(options) && transporter == old(transporter)
      ensures tempStore == old(tempStore) && persistentStore == old(persistentStore)
      ensures CopyJson(Get(options, "mailOptions")).Err? ==>
        res == Err(CopyJson(Get(options, "mailOptions")).error) && outbox == old(outbox)
      ensures Get(options, "mailOptions").Obj? ==>
        && res == Ok(Confirmed(user))
        && |outbox| == |old(outbox)| + 1
        && outbox[..|old(outbox)|] == old(outbox)
        && outbox[|old(outbox)|].transport == transporter
        && IsConfirmationMail(outbox[|old(outbox)|].mail, options, user)
    {
      var copy := CopyJson(Get(options, "mailOptions"));
      if copy.Err? {
        return Err(copy.error);
      }
      var mailOptions := copy.value;
      mailOptions := mailOptions["to" := FromOption(Lookup(user, EmailField))];
      mailOptions := mailOptions["html" := Str(ConfirmedBody)];
      mailOptions := mailOptions["text" := Str(ConfirmedBody)];
      outbox := outbox + [Sent(transporter, mailOptions)];
      return Ok(Confirmed(user));
    }

    /**
     * The sign-up sequence the module is built for: `createTempUser`, and
     * `registerTempUser` on the user it yields. The result is that of
     * `createTempUser`, or the error `registerTempUser` raises: the save
     * error, or the rendering error after the user has been saved. It keeps
     * the pending users' emails unique.
     */
    method SignUp(user: Record, lookupOk: bool, token: string, saveOk: bool) returns (res: Result<Option<Record>>)
      requires IsToken(token)
      modifies this
      ensures options == old(options) && transporter == old(transporter)
      ensures persistentStore == old(persistentStore)
      ensures !TempModelDefined() ==> res == Err(TypeError)
      ensures TempModelDefined() && !lookupOk ==> res == Err(StoreError)
      ensures TempModelDefined() && lookupOk && !old(EmailIsNew(user)) ==> res == Ok(None)
      ensures !(TempModelDefined() && lookupOk && old(EmailIsNew(user)) && saveOk) ==>
        tempStore == old(tempStore) && outbox == old(outbox)
      ensures TempModelDefined() && lookupOk && old(EmailIsNew(user)) && !saveOk ==> res == Err(StoreError)
      ensures TempModelDefined() && lookupOk && old(EmailIsNew(user)) && saveOk ==>
        && tempStore == old(tempStore) + [user[TokenField := token]]
        && (!Get(options, "verificationURL").Str? ==> res == Err(TypeError))
        && (Get(options, "verificationURL").Str? && CopyJson(Get(options, "mailOptions")).Err? ==>
              res == Err(CopyJson(Get(options, "mailOptions")).error))
        && (Get(options, "verificationURL").Str? && Get(options, "mailOptions").Obj? && !MailReady(options) ==>
              res == Err(TypeError))
        && (MailReady(options) ==> res == Ok(Some(user[TokenField := token])))
      ensures res.Ok? && res.value.Some? ==>
        && |outbox| == |old(outbox)| + 1
        && outbox[..|old(outbox)|] == old(outbox)
        && outbox[|old(outbox)|].transport == transporter
        && IsVerificationMail(outbox[|old(outbox)|].mail, options, res.value.value)
      ensures !(res.Ok? && res.value.Some?) ==> outbox == old(outbox)
      ensures old(UniquePending()) ==> UniquePending()
    {
      res := CreateTempUser(user, lookupOk, token);
      if res.Ok? && res.value.Some? {
        var rec := res.value.value;
        assert rec == user[TokenField := token];
        assert Lookup(rec, EmailField) == Lookup(user, EmailField);
        if UniquePending() {
          AppendKeepsUnique(tempStore, rec);
        }
        var saved := RegisterTempUser(rec, saveOk);
        if saved.Err? {
          res := Err(saved.error);
        }
      }
    }

    /**
     * The whole lifecycle with every store call succeeding: a new user signs
     * up and the link's token is redeemed. The user ends up in the persistent
     * collection less any token field, the pending
     * collection is as before, so the token is no longer valid, and two mails
     * went out: the verification mail and the confirmation mail.
     */
    method RegisterAndConfirm(user: Record, token: string) returns (res: Result<Confirmation>)
      requires IsToken(token)
      requires TempModelDefined() && PersistentModelDefined() && MailReady(options)
      requires EmailIsNew(user)
      requires FindOne(tempStore, TokenField, Some(token)).None?
      modifies this
      ensures options == old(options) && transporter == old(transporter)
      ensures res == Ok(Confirmed(user - {TokenField}))
      ensures persistentStore == old(persistentStore) + [user - {TokenField}]
      ensures tempStore == old(tempStore)
      ensures |outbox| == |old(outbox)| + 2 && outbox[..|old(outbox)|] == old(outbox)
      ensures outbox[|old(outbox)|].transport == transporter && outbox[|old(outbox)| + 1].transport == transporter
      ensures IsVerificationMail(outbox[|old(outbox)|].mail, options, user[TokenField := token])
      ensures IsConfirmationMail(outbox[|old(outbox)| + 1].mail, options, user - {TokenField})
    {
      ghost var temp0, outbox0 := tempStore, outbox;
      var created := SignUp(user, true, token, true);
      assert tempStore[..|tempStore| - 1] == temp0;
      ghost var outbox1 := outbox;
      res := ConfirmSignedUp(user, token);
      assert outbox[..|outbox0|] == outbox1[..|outbox0|];
      assert outbox[|outbox0|] == outbox1[|outbox0|];
    }

    /**
     * `confirmTempUser` on the token of the user `SignUp` just saved, with
     * every store call succeeding: the user is promoted, and the pending
     * collection loses exactly that user.
     */
    method ConfirmSignedUp(user: Record, token: string) returns (res: Result<Confirmation>)
      requires TempModelDefined() && PersistentModelDefined() && Get(options, "mailOptions").Obj?
      requires |tempStore| > 0 && tempStore[|tempStore| - 1] == user[TokenField := token]
      requires FindOne(tempStore[..|tempStore| - 1], TokenField, Some(token)).None?
      modifies this
      ensures options == old(options) && transporter == old(transporter)
      ensures res == Ok(Confirmed(user - {TokenField}))
      ensures persistentStore == old(persistentStore) + [user - {TokenField}]
      ensures tempStore == old(tempStore)[..|old(tempStore)| - 1]
      ensures |outbox| == |old(outbox)| + 1 && outbox[..|old(outbox)|] == old(outbox)
      ensures outbox[|old(outbox)|].transport == transporter
      ensures IsConfirmationMail(outbox[|old(outbox)|].mail, options, user - {TokenField})
    {
      ghost var temp0 := tempStore[..|tempStore| - 1];
      var rec := user[TokenField := token];
      assert tempStore == temp0 + [rec];
      FindOneAppend(temp0, rec, TokenField, Some(token));
      assert rec - {TokenField} == user - {TokenField};
      assert PromotedUser(tempStore, token) == Some(user - {TokenField});
      res := ConfirmTempUser(token, true, true, true);
      RemoveAllAppend(temp0, rec, TokenField, Some(token));
      RemoveAllNoMatch(temp0, TokenField, Some(token));
    }
  }
}
