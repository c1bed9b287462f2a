# LoRaWAN stack: IN865-867 band and identity-server user accounts

This project models two parts of a LoRaWAN network stack in Dafny and proves
properties of them.

**The IN865-867 band** (`band.dfy`, module `Band`). This is the band definition
from the LoRaWAN Regional Parameters v1.1 revision A, section 2.10. It is a
constant record:
- the channel maxima;
- the single sub-band and its duty cycle;
- the data-rate table, LoRa DR0..DR5 and FSK DR7, with their maximum MAC payload sizes;
- the ADR ceiling;
- the default RX2 parameters and the beacon data rate.

The record also holds the RX1 data-rate rule. The rule subtracts the RX1
offset from the uplink data rate. Offsets 6 and 7 act as -1 and -2. The result
is clamped to DR0..DR5. The Go closure converts to `int8`, so the model writes
that conversion out with two's-complement wrap-around. A lemma proves that the
wrap-around never applies for DR0..DR15 and offsets 0..7. The closure returns
an `error` that is always nil, so the model's function returns the index alone.

**The user account service** (`users.dfy`, module `Users`). The store is the
`UserService` class: accounts, pending validation tokens, the collaborators of
applications and gateways, and authorized OAuth clients, each a `map` field.
Each RPC is a method. A store transaction is all-or-nothing: every method
either fails and leaves the store as it was, or commits all of its writes. The
methods stage their writes in locals and assign the fields only on success.
`UpdateUser` keeps the source's loop over the update-mask paths. That loop is
specified by `ApplyMask`, a fold over the paths, and lemmas about `ApplyMask`
state what an update may and may not change.

The collaborators are inputs, gathered in the `Env` datatype:
- the clock (`time.Now`);
- the random token text (`random.String`);
- password hashing and checking (`types.Hash`, `Validate`), which may fail;
- the blacklist and e-mail allow-list matchers (`IsIDAllowed`, `IsEmailAllowed`);
- the invitation store's `Use`;
- token expiry (`IsExpired`);
- whether the validation e-mail was delivered (`email.Send`).

The authenticated caller, which `enforceUserRights` yields in the source, is a
parameter of each method the source authorizes; `CreateUser` and
`ValidateUserEmail` are not authorized in the source and take no caller.

Note on `UpdateUser`: the "e-mail changed" flag is reassigned at every e-mail
path of the mask. With the e-mail path listed twice, the second pass sees the
already-overwritten address and reports no change. The validation time was
cleared on the first pass, but no token is stored or mailed.
`Users.EmailPathTwice` states this behaviour, and "## Findings" records it
against the documented intent.

## Model

| member | source | states |
|---|---|---|
| `Band.Rx1DataRate` | pkg/band/in_865_867_rp1_v1_1_rev_a.go:78-92 | The result is always in DR0..DR5. For offsets 0..5 it is clamp(idx - offset, 0, 5). Offsets 6 and 7 give clamp(idx + 1, 0, 5) and clamp(idx + 2, 0, 5). No error case exists. |
| `Band.EffectiveOffset` | pkg/band/in_865_867_rp1_v1_1_rev_a.go:79-82 | The rebinding of `so` keeps offsets 0..5 and maps 6 and 7 to 5 - offset, that is -1 and -2. |
| `Band.Int8` | pkg/band/in_865_867_rp1_v1_1_rev_a.go:79-83 | The `int8` conversion lands in -128..127, is congruent to its input modulo 256, and is the identity on in-range values. |
| `Band.Rx1DataRateNeverWraps` | pkg/band/in_865_867_rp1_v1_1_rev_a.go:79-83 | For every data rate and offset, the `int8` conversions of the offset, the index and their difference never wrap. |
| `Band.Rx1DataRateIgnoresDwellTime` | pkg/band/in_865_867_rp1_v1_1_rev_a.go:78 | The dwell-time argument does not affect the RX1 data rate. |
| `Band.Rx1DataRateMonotone` | pkg/band/in_865_867_rp1_v1_1_rev_a.go:83-91 | For a fixed offset, the RX1 data rate is non-decreasing in the uplink data rate. |
| `Band.Rx1DataRateOffsetZero` | pkg/band/in_865_867_rp1_v1_1_rev_a.go:84-91 | With offset 0, uplink rates DR0..DR5 are kept unchanged. |
| `Band.IN865867DataRates` | pkg/band/in_865_867_rp1_v1_1_rev_a.go:40-49 | The table defines exactly DR0..DR5 and DR7, with no DR6. DR0..DR5 are LoRa at 125 kHz with SF12 down to SF7. DR7 is FSK at 50 kbit/s. Max MAC payloads are 59, 59, 59, 123, 250, 250 and 250. |
| `Band.IN865867` | pkg/band/in_865_867_rp1_v1_1_rev_a.go:20-109 | Uplink and downlink channel maxima are both 16. The ADR ceiling is DR5. There is one sub-band, [865000000, 867000000] Hz, with duty cycle 1. The default RX2 is DR2 at 866550000 Hz. The record's RX1 rule is `Rx1DataRate`. |
| `Band.IN865867Consistent` | pkg/band/in_865_867_rp1_v1_1_rev_a.go:31-101 | The ADR ceiling DR5 is the fastest LoRa rate in the table. Every RX1 result is a defined rate at or below that ceiling. The RX2 rate and the beacon rate are defined. The RX2 frequency lies in the sub-band. |
| `Users.ToLower` | pkg/identityserver/users.go:164 | Lower-casing keeps the length and lower-cases each character. |
| `Users.ToLowerIdempotent` | pkg/identityserver/users.go:164 | Lower-casing an already lower-cased string changes nothing. |
| `Users.SameEmailIgnoresCase` | pkg/identityserver/users.go:164 | An address and its lower-cased form count as the same address, so case alone never counts as an e-mail change. |
| `Users.NewUser` | pkg/identityserver/users.go:50-64 | A new account keeps the requested ID, name and e-mail and stores the hash. It is APPROVED iff admin approval is off, otherwise PENDING. It is validated iff validation is skipped. |
| `Users.ScrubbedClient` | pkg/identityserver/users.go:460-463 | A listed client has empty secret, redirect URI and grants, and keeps its ID and description. |
| `Users.NewValidationToken` | pkg/identityserver/users.go:88-92 | A validation token carries the random text, the user, the current time and the configured lifetime. |
| `Users.ApplyMaskAcceptsOnlyKnownPaths` | pkg/identityserver/users.go:152-178 | A mask that applies without error contains only the name and e-mail paths. |
| `Users.ApplyMask` | pkg/identityserver/users.go:151-179 | The mask loop, a fold of `ApplyPath` (one pass of the `switch` at users.go:153-178), fails only with `EmailAddressNotAllowed` for the requested address or with `InvalidPathUpdateMask` naming one of the mask's paths. On success the name is the stored or the requested one, and a changed address is the requested one. |
| `Users.ApplyMaskRejectsUnknownPath` | pkg/identityserver/users.go:152-177 | The first path that is neither name nor e-mail fails the update with `InvalidPathUpdateMask(path)` when only name paths come before it, or name and e-mail paths with an allowed address. |
| `Users.ApplyMaskKeepsOtherFields` | pkg/identityserver/users.go:152-178 | An update never changes the account's ID, password hash or state. |
| `Users.ApplyMaskNameOnly` | pkg/identityserver/users.go:154-155 | A mask of name paths only changes `name` and nothing else, and leaves the change flag as it was. |
| `Users.ApplyMaskSameEmailKeepsValidation` | pkg/identityserver/users.go:164-173 | If the requested address equals the stored one up to case, no change is reported and the validation time is untouched. The stored address may still be overwritten with the requested spelling. |
| `Users.EmailPathEffect` | pkg/identityserver/users.go:156-173 | With an allowed address, an e-mail path always overwrites `email`. It reports a change iff the addresses differ after lower-casing. On a change, the validation time becomes now if validation is skipped and is cleared otherwise. Without a change, it is kept. |
| `Users.EmailPathNotAllowed` | pkg/identityserver/users.go:157-162 | An e-mail path with a disallowed address fails with `EmailAddressNotAllowed`. |
| `Users.EmailPathTwice` | pkg/identityserver/users.go:151-186 | With the e-mail path listed twice and a real change, the final flag is false while the validation time is cleared. |
| `Users.ApplyMaskIntendedFlag` | pkg/identityserver/users.go:130-186 | The corrected loop `ApplyMaskIntended` gives the same account and errors as the loop as written, and its flag reports a change exactly when the final address differs, up to case, from the original one. |
| `Users.ApplyMaskIntendedAgrees` | pkg/identityserver/users.go:152-179 | The account and errors of the mask loop do not depend on the incoming e-mail-changed flag. |
| `Users.EmailPathTwiceIntended` | pkg/identityserver/users.go:130-132 | With the e-mail path listed twice and a real change, the corrected flag reports the change. |
| `Users.UserService.CreateUser` | pkg/identityserver/users.go:26-110 | Self-registration off and no invitation fails with `InvitationTokenMissing`. A blacklisted ID fails with `BlacklistedId`. Without an invitation, a disallowed e-mail fails with `EmailAddressNotAllowed`, and the account already created is rolled back. It succeeds exactly when every check passes, including the invitation and the e-mail delivery. On success the new account is `NewUser(...)`, and a token is stored iff validation is not skipped. On failure the store is unchanged. |
| `Users.UserService.GetUser` | pkg/identityserver/users.go:113-128 | It returns the caller's stored account with an empty password and every other field as stored. A missing account fails with `UserNotFound`. |
| `Users.UserService.UpdateUser` | pkg/identityserver/users.go:133-209 | The loop computes `ApplyMask`, and its errors are returned with the store unchanged. On success only the caller's record changes, to the masked account. A token is stored iff the last e-mail path of the mask reported a change (the flag `ApplyMask` returns; see `EmailPathTwice`) and validation is not skipped. A failed delivery of that e-mail fails the update and rolls it back. |
| `Users.UserService.UpdateUserPassword` | pkg/identityserver/users.go:212-245 | A non-matching old password fails with `InvalidPassword`, leaving the hash unchanged. It succeeds iff the account exists, the old password matches and hashing succeeds. It then stores the new hash and changes nothing else. |
| `Users.UserService.DeleteUser` | pkg/identityserver/users.go:248-300 | It succeeds iff the account exists and no application or gateway of the caller already lacks a collaborator with the collaborator-management right (the caller's own collaborations still count), as `LeavesEntityUnmanaged` states for the loops at users.go:260-294. On success only the caller's account is removed. On failure nothing changes. |
| `Users.UserService.ValidateUserEmail` | pkg/identityserver/users.go:366-393 | An unknown token fails. An expired token fails with `ValidationTokenExpired`. Otherwise, if the token's account still exists, it is marked validated now and the token is consumed; if the account is gone, it fails with `UserNotFound` and nothing changes. |
| `Users.UserService.RequestUserEmailValidation` | pkg/identityserver/users.go:397-440 | An already validated e-mail fails with `EmailAlreadyValidated`. Otherwise a fresh token is stored iff the e-mail is delivered. |
| `Users.UserService.ListAuthorizedClients` | pkg/identityserver/users.go:444-468 | It returns the caller's stored clients in store order, each one in its scrubbed form with no secret, redirect URI or grants, and nothing when the store has no clients for the caller. |

## Findings

| source | as written | input that shows it | evidently intended | confidence | as-written member | corrected member |
|---|---|---|---|---|---|---|
| pkg/identityserver/users.go:164 | The e-mail-changed flag compares the requested address with the account's current address at every e-mail path, so a second e-mail path compares the new address with itself and resets the flag. | Mask `["email", "email"]`, an allowed address that differs up to case from the stored one, validation not skipped: the address changes and the validation time is cleared, but no validation token is stored or mailed. | The doc comment at users.go:130-132: an updated address gets a validation e-mail iff validation is not skipped, so the flag should report a change whenever the final address differs from the original one. | medium, not executed | `Users.EmailPathTwice` | `Users.ApplyMaskIntendedFlag` |

The service model (`UserService.UpdateUser`) keeps the loop as written. The
corrected fold `ApplyMaskIntended` and its lemmas state the documented
behaviour beside it.

## Left out

- Band: the floating-point `MaxEIRP` of the sub-band and the `float32` `TxOffset` table are not modelled; the duty cycle is the real number 1.
- Band: the internals of `makeLoRaDataRate`, `makeFSKDataRate` and `makeConstMaxMACPayloadSizeFunc` are not modelled; a data rate keeps the arguments given at the call site and a constant maximum payload size.
- Band: `generateChMask16`, `parseChMask16`, `channelIndexIdentity`, the default channel list and the beacon frequencies are defined outside this file and are not part of this model; neither are the receive-delay, join-accept, FCnt-gap, ADR-ack and retransmission-timeout constants.
- Users: authorization (`enforceUserRights`) is not modelled; the authenticated caller is a parameter.
- Users: password hashing, random token text, the clock, token expiry arithmetic, the e-mail allow-list and blacklist matching, the invitation store and e-mail delivery are opaque answers carried by `Env`; the e-mail template contents are not modelled.
- Users: `strings.ToLower` is modelled for ASCII letters only; Unicode case mapping is not modelled.
- Users: the field paths are matched by equality with `name` and `email`; the regular expressions behind `FieldPathUserName` and `FieldPathUserEmail` are not part of this model.
- Users: store failures other than a missing record or a taken ID (reading the settings, `Users.Update`, `SaveValidationToken`, `DeleteValidationToken`, `ListByUser`, `ListCollaborators`, listing OAuth clients) are not modelled; those calls always succeed here.
- Users: the effect of `Invitations.Use` on the invitation store is not modelled, only whether it accepts the invitation.
- Users: the source runs the collaborator check after `Users.Delete` (users.go:255-294), and what that store call does to the user's collaborations is not part of this model; it is modelled as removing the account record only, so the collaborations and validation tokens of the deleted user are kept and the check reads the collaborations as they stand.
- Users.UserService.DeleteUser: does not guarantee that an application or gateway keeps a manager other than the deleted user; a caller who is the only manager still counts as one and the deletion succeeds.
- Users.UserService.DeleteUser: the error names neither the application nor the gateway that would be left without a manager; it is the single `LastCollaborator` error.
- Users.UserService.CreateUser: the contract names the error for the gate, the blacklist and the e-mail allow-list; the other failures (hashing, a taken ID, a rejected invitation, a failed delivery) are stated only as failures.
- Users.UserService.UpdateUser: the error of a failed e-mail delivery is stated only as a failure.
- Users: `GenerateUserAPIKey` is not modelled: it generates the key with `auth.GenerateUserAPIKey`, an opaque collaborator, and then saves it with the store's `SaveAPIKey`.
- Users: `ListUserAPIKeys`, `UpdateUserAPIKey`, `RemoveUserAPIKey` and `RevokeAuthorizedClient` are not modelled: each is a single pass-through call to the store after authorization.
- Users: the `ExpiresIn` conversion of the token lifetime to 32-bit seconds is not modelled; the lifetime is a natural number of seconds.
