# node-email-verification in Dafny

This project models the verification lifecycle of the `node-email-verification`
module (`index.js`). Here is what that module does:

- It keeps a module-level `options` object, which `configure` overwrites property by property.
- It derives a temporary-user Mongoose model from the persistent user model (`generateTempUserModel`).
- `createTempUser` builds a pending user that carries a 48-character random token, unless a pending user with the same email already exists.
- `registerTempUser` saves the pending user and mails a link. The link comes from the `verificationURL` template, with every `${URL}` replaced by the token. The mail's html and text have every `${URL}` replaced by that link.
- `confirmTempUser` looks a pending user up by token. It saves the user without the token into the persistent collection, then removes every pending user with that token, then mails a fixed confirmation message.

The files:

- `wrappers.dfy`: `Option`.
- `js.dfy`: the JavaScript values the options hold, with Mongoose models as values that carry a collection name and a schema. It also holds the failures an operation can end in and the `JSON.parse(JSON.stringify(..))` copy followed by a property assignment in strict mode.
- `objects.dfy`: the field-by-field copy loop.
- `schema.dfy`: schemas, and the derivation of the temporary schema.
- `token.dfy`: what a generated token looks like.
- `store.dfy`: the two collections as sequences of documents, with `findOne` and `remove` on an equality query.
- `template.dfy`: `String.prototype.replace` with the global pattern `/\$\{URL\}/g`. This follows GetSubstitution in the ECMAScript language specification, so `$$`, `$&`, `` $` `` and `$'` in the replacement are special. It is related to the plain textual substitution and to `split`/`join` as reference definitions.
- `verifier.dfy`: the module state as a class `Verifier` and its operations.

External effects are parameters of the operations:

- Whether a store call succeeds is a boolean parameter.
- The random token is a parameter that satisfies `IsToken`.
- A mail handed to the transporter is appended to `outbox`, together with the transport options the transporter was created from.

In the source, an error from a store call is rethrown inside its callback. In the model that operation returns `Err(StoreError)` at that step. The state changes of the earlier steps stay.

Some facts about the code that the model follows:

- `index.js` has no token expiry, no `resendVerificationEmail`, no hashing hook and no validation in `configure`.
- `createTempUser` does not save the user; `registerTempUser` does.
- An unknown token in `confirmTempUser` ends without any effect. The model calls that outcome `NotFound`.

## Model

| member | source | states |
|---|---|---|
| Objects.CopyFields | index.js:102-104 | the copy has exactly the keys of the source object and the same value under each |
| Schema.DeriveTempSchema | index.js:66-70 | the temporary schema has the persistent fields with their declared types, plus the token field, of type String |
| Template.Replace | index.js:130-134 | the global replace of `/\$\{URL\}/g`, with `$$`, `$&`, `` $` `` and `$'` in the replacement expanded as GetSubstitution does; its contract states that a template without `${URL}` is returned unchanged whatever the replacement, and that for a replacement without `$` the result is the literal replacement of every marker |
| Template.ReplaceIsSplitJoin | index.js:123 | for a replacement without `$`, replacing every marker equals splitting at the markers and joining with the replacement |
| Template.SplitJoin | index.js:123 | splitting at the markers gives at least one piece; joining the pieces with the marker gives the text back; no piece holds a marker |
| Template.SubstituteJoin | index.js:123 | substituting into pieces joined by the marker joins the pieces with the replacement |
| Template.SubstituteAfter | index.js:123 | the first marker after marker-free text is replaced first, and the substitution goes on after it |
| Template.SubstituteNoMarker | index.js:123 | the literal substitution leaves marker-free text unchanged |
| Template.ExpandLiteral | index.js:130 | a replacement without `$` is inserted literally for each match |
| Template.ReplaceTrailingMarker | index.js:9 | a dollar-free template ending in its only marker, filled with a dollar-free replacement, is the template's text followed by the replacement |
| Template.NoDollarNoMarker | index.js:123 | text without a dollar sign holds no marker |
| Store.FindOne | index.js:89 | `findOne` returns the first document matching the equality query, and none if no document matches |
| Store.RemoveAll | index.js:168 | `remove` keeps exactly the documents that do not match the query |
| Store.RemoveAllCounts | index.js:168 | `remove` drops every copy of a matching document and keeps every copy of any other |
| Store.RemoveAllRemoves | index.js:168 | after `remove`, `findOne` with the same query finds nothing, so a redeemed token is no longer valid |
| Store.RemoveAllNoMatch | index.js:168 | `remove` with a query nothing matches leaves the collection as it was |
| Store.RemoveAllAppend | index.js:168 | `remove` on a collection with one more document at the end removes that document exactly when it matches |
| Store.FindOneAppend | index.js:124 | after a save at the end, `findOne` returns the old result if there was one, or else the new document if it matches |
| Store.AppendKeepsUnique | index.js:89-106 | saving a user whose email no pending user has keeps the pending emails pairwise distinct |
| Store.RemoveAllKeepsUnique | index.js:168 | removing pending users keeps the pending emails pairwise distinct |
| EmailVerification.DefaultVerificationLink | index.js:9 | with the default options, a token's link is `http://example.com/email-verification/` followed by the token |
| EmailVerification.VerificationLink | index.js:130 | the link is the URL template with every `${URL}` replaced by the user's token; for a token of letters and digits it equals the template split at the markers and joined with the token; a user without a token field leaves a marker-free template as it is |
| Js.CopyJson | index.js:131-132 | the copy of the mail options followed by the assignment of `to` succeeds exactly on an object and yields its properties; `undefined`, a model or another function (which `JSON.stringify` turns into `undefined`) gives a SyntaxError from `JSON.parse`; `null`, a boolean, a number or a string gives a TypeError from the assignment in strict mode |
| EmailVerification.Verifier.constructor | index.js:8-39 | the initial options are the module's defaults, the transporter is created from the default transport options, the collections hold the documents given (the database may hold some when the module loads), and no mail has been sent |
| EmailVerification.Verifier.Configure | index.js:48-52 | every property of the argument overwrites the option of that name, every other option keeps its value, the transporter is created anew from the resulting transport options, and nothing else changes |
| EmailVerification.Verifier.GenerateTempUserModel | index.js:62-74 | `options.tempUserModel` becomes a model named by `options.tempUserCollection`, whose schema is the persistent one plus the String token field; no other option changes |
| EmailVerification.Verifier.CreateTempUser | index.js:87-112 | with no temporary model, a TypeError and no lookup. On a lookup error, that error. Otherwise it yields null exactly when a pending user has the same email, and else a user with every field of the argument plus a 48-character token. It changes nothing |
| EmailVerification.Verifier.RegisterTempUser | index.js:122-138 | a failed save changes nothing. A successful save appends the user. The operation ends normally exactly when the save succeeds and the options can be rendered, and then exactly one mail is appended: the verification mail. Each rendering failure raises the error the source raises, with no mail |
| EmailVerification.Verifier.SendVerification | index.js:128-136 | the mail is a copy of the mail options, addressed to the user's email, whose html and text have every marker replaced by the link; the link is the URL template with every marker replaced by the token; each failure is the TypeError or SyntaxError the source throws |
| EmailVerification.Verifier.ConfirmTempUser | index.js:148-181 | an unknown token, a missing model or a failed lookup changes nothing. For a known token, the user without the token is saved; the pending users with the token are removed only after the save succeeds; the confirmation mail goes out only after the removal. It keeps the pending emails unique |
| EmailVerification.Verifier.PromoteTempUser | index.js:156-178 | the steps after a successful lookup. A missing persistent model or a failed save changes nothing. A failed removal keeps the save. After a successful removal the token finds no pending user, and the confirmation mail is appended |
| EmailVerification.Verifier.SendConfirmation | index.js:171-176 | the confirmation mail is a copy of the mail options, addressed to the user's email, whose html and text are "Your account has been confirmed."; options that cannot be copied raise the source's error and send nothing |
| EmailVerification.Verifier.SignUp | index.js:87-138 | `createTempUser` followed by `registerTempUser` on the user it yields. With no temporary model, a TypeError; on a failed lookup, a store error; with a pending user of the same email, null; in these cases and on a failed save (a store error), nothing changes. After a successful save of a new email the pending collection grows by the user with the token. The result is then that user exactly when the options can be rendered, and the verification mail is sent through the current transporter; otherwise it is the TypeError or SyntaxError the rendering raises, and no mail is sent. The pending emails stay unique |
| EmailVerification.Verifier.ConfirmSignedUp | index.js:148-181 | confirming the token of the user saved last promotes that user without its token and removes exactly that pending user; the options and the transporter stay as they were, and the confirmation mail goes out through the transporter |
| EmailVerification.Verifier.RegisterAndConfirm | index.js:87-181 | sign-up followed by confirmation of the token. The persistent collection gains the user less any `GENERATED_VERIFYING_URL` field, the pending collection is back to what it was (so the token is invalid), and two mails go out through the unchanged transporter, in order: the verification mail and the confirmation mail |

## Left out

- Asynchrony: the callbacks run in sequence here. The race between two `createTempUser` calls for the same email, both passing the duplicate check before either saves, is not modelled. `SignUp` and `ConfirmTempUser` preserve `UniquePending`. `RegisterTempUser` on its own saves without a duplicate check, as the source does, so calling it directly can break `UniquePending`.
- Mongoose: documents are maps from field names to strings. The model leaves out:
  - schema casting, and strict-mode dropping of fields that are not in the schema;
  - `_id` and `__v`;
  - nested paths;
  - the mongoose error when a model name is registered twice (`OverwriteModelError`).
- `Verifier.Configure`, `Verifier.GenerateTempUserModel`: the model has one pending collection (`tempStore`) and one persistent collection (`persistentStore`), whichever models the options name. In the source, `findOne`, `save` and `remove` go to the collection of the model that `options.tempUserModel` or `options.persistentUserModel` holds at the time. So `configure` with another model, or `generateTempUserModel` with another `tempUserCollection`, redirects them to another collection. The model records the collection name in the `Model` value but does not switch collections.
- `Store.Matches`: a query value of `undefined` (a user without `email` at index.js:89) is assumed to match the documents that lack the field, as a null condition does; Mongoose versions that drop an `undefined` condition would match any document instead.
- `findOne` picks the first match in insertion order; MongoDB's natural order is not modelled further.
- `JSON.parse(JSON.stringify(..))` is modelled only as far as the kind of the copied value goes. The property list is not exact. Top-level properties whose value is `undefined` or a function are kept in the model, though the source drops them. So the mail in `IsVerificationMail` and `IsConfirmationMail` may list such keys where the source's mail lacks them. Values inside the mail options are copied as they are, and nested functions and dates are not transformed.
- nodemailer: `createTransport` is modelled as recording the transport options, and `sendMail` as an append to `outbox`. Delivery, and `sendMailCallback` with its errors, are not modelled.
- `randtoken.generate(48)` is randomness: the token is a parameter. The library's alphabet is assumed to be letters and digits; the rand-token library is not part of this model.
- `for (var key in o)` in `configure` also visits inherited enumerable properties. The model copies the object's own properties only.
- `hashPassword`, the Express example servers, the user schemas and the tests are not part of this model. `index.js` does not use them in these operations.
- `Objects.CopyFields`: copies from `user._doc` keys reading `user[field]`. The model takes the document's fields as the user's values, with no getters or virtuals.
