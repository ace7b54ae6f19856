# Annotation permissions service

A model of the permissions service of the Hypothesis annotation client's
sidebar. The service builds the access lists attached to an annotation. Each
list set has three fields, `read`, `update` and `delete`. Each field is a list
of principal tokens. A token is a user id (`acct:flash@gord.on`) or a group
token (`group:<groupid>`).

- `Private(u)` gives every action to the user alone.
- `Shared(u, g)` lets group `g` read and the user alone update and delete.
- `Default(u, g)` picks one of the two from the privacy level saved under
  `annotationPrivacy` in the injected settings store. It is private only when
  the saved level is exactly `"private"` and a user is present. With no user
  it is always shared, which guards against the "split-null" defect (a private
  set for an absent user, which no one could read).
- `SetDefault(level)` saves the level in the store, unvalidated.
- `IsShared(p)` says whether some `read` token starts with `group:`.
- `Permits(p, action, u)` says whether `u` appears literally in the list for
  `action`. Group tokens are not expanded to their members.

Files:

- `wrappers.dfy`: `Option`. `None` stands for JavaScript's `undefined`/`null`
  user id.
- `settings.dfy`: the settings store, a class over a `map<string, string>`.
  `GetDefault` answers `None` for a missing key; `SetDefault` updates one key.
- `permissions.dfy`: the permission sets as a datatype, the pure operations as
  functions, the service as a class `Permissions` over a `SettingsStore`, and
  the lemmas.

The implementation file `src/sidebar/services/permissions.js` is not part of
this model. The behaviour is the one its test file pins down. The user guard
of `Default` follows JavaScript truthiness, so an empty-string user id counts
as no user; the test file pins down only an `undefined` user.

## Model

| member | source | states |
|---|---|---|
| `PermissionsService.Private` | src/sidebar/services/test/permissions-test.js:17-24 | the user, and only the user, is listed for read, update and delete |
| `PermissionsService.Shared` | src/sidebar/services/test/permissions-test.js:27-34 | the result equals `Private(u)` with `read` replaced by the single group token, so only `read` differs |
| `PermissionsService.GroupToken` | src/sidebar/services/test/permissions-test.js:29-31 | the group token starts with `group:` and what follows the prefix is exactly the group id |
| `PermissionsService.IndexOf` | src/sidebar/services/test/permissions-test.js:92-104 | -1 exactly when the token is absent; otherwise the index of its first occurrence |
| `PermissionsService.Permits` | src/sidebar/services/test/permissions-test.js:92-104 | true exactly when the user id is literally in the list for the action |
| `PermissionsService.AnyGroupToken` | src/sidebar/services/test/permissions-test.js:80-90 | true exactly when some token of the list is a group token |
| `PermissionsService.IsShared` | src/sidebar/services/test/permissions-test.js:80-90 | true exactly when some `read` token is a group token |
| `PermissionsService.DefaultPermissions` | src/sidebar/services/test/permissions-test.js:37-71 | for every saved level and user, the read list holds exactly one token and it is a present, non-empty principal (no split-null set), and update and delete are the user alone |
| `PermissionsService.Permissions.constructor` | src/sidebar/services/test/permissions-test.js:9-15 | the service keeps the store it is built over |
| `PermissionsService.Permissions.Default` | src/sidebar/services/test/permissions-test.js:37-71 | the result is the default permissions for the level the store holds under `annotationPrivacy` (none when the key is missing) |
| `PermissionsService.Permissions.SetDefault` | src/sidebar/services/test/permissions-test.js:73-78 | the store now maps `annotationPrivacy` to the level; every other key is unchanged |
| `PermissionsService.SaveThenDefault` | src/sidebar/services/test/permissions-test.js:45-78 | after saving a level, the next default is computed from exactly that level |
| `Settings.SettingsStore.constructor` | src/sidebar/services/test/permissions-test.js:10-13 | a fresh store holds no setting, so every lookup answers null |
| `Settings.SettingsStore.GetDefault` | src/sidebar/services/test/permissions-test.js:10-11 | returns the saved value when the key is present and `None` otherwise |
| `Settings.SettingsStore.SetDefault` | src/sidebar/services/test/permissions-test.js:12 | the key now maps to the value; every other key is unchanged |
| `PermissionsService.DefaultWithoutSavedLevel` | src/sidebar/services/test/permissions-test.js:38-43 | with nothing saved, the default is `Shared(u, g)` |
| `PermissionsService.DefaultWithPrivateLevel` | src/sidebar/services/test/permissions-test.js:45-51 | with `"private"` saved and a user present, the default is `Private(u)` |
| `PermissionsService.DefaultWithoutUser` | src/sidebar/services/test/permissions-test.js:53-62 | with no user, the default is `Shared(undefined, g)` whatever is saved, and it is shared |
| `PermissionsService.UnguardedDefaultNamesNoReader` | src/sidebar/services/test/permissions-test.js:53-62 | the rule without the user guard, given `"private"` and no user, yields the split-null set `[undefined]` with no present reader, while the guarded default names only present readers for the same inputs |
| `PermissionsService.DefaultWithOtherLevel` | src/sidebar/services/test/permissions-test.js:64-70 | any saved level other than exactly `"private"`, `"shared"` included, gives `Shared(u, g)` |
| `PermissionsService.DefaultIsSharedIff` | src/sidebar/services/test/permissions-test.js:37-71 | the default is not shared if and only if `"private"` is saved, a user is present, and the user id is not itself a group token |
| `PermissionsService.SharedIsShared` | src/sidebar/services/test/permissions-test.js:81-84 | `IsShared(Shared(u, g))` holds for every user and group |
| `PermissionsService.PrivateIsSharedIff` | src/sidebar/services/test/permissions-test.js:86-89 | `IsShared(Private(u))` holds if and only if `u` starts with `group:`, so it is false for every `acct:` user id |
| `PermissionsService.PermitsPrivate` | src/sidebar/services/test/permissions-test.js:93-103 | on `Private(owner)`, every action permits a user if and only if the user is the owner |
| `PermissionsService.PermitsShared` | src/sidebar/services/test/permissions-test.js:92-104 | on `Shared(owner, g)`, read permits only the literal group token, and update and delete permit only the owner |
| `PermissionsService.SetDefaultThenDefault` | src/sidebar/services/test/permissions-test.js:73-78 | from any store contents, after saving a level the default is not shared if and only if that level is `"private"`, a user is present, and the user id is not itself a group token |

## Left out

- The implementation file `src/sidebar/services/permissions.js` is not part of this model; the model follows the behaviour its tests fix.
- `permits` with an action other than `read`, `update` or `delete`: the action is an enumeration here, since any other string is a caller error with no defined result.
- A group id that is `undefined`: JavaScript would build the token `"group:undefined"`; group ids are plain strings here.
- A `read` list holding an absent token: `IsShared` treats it as a non-group token.
- The test doubles' call recording (which key `getDefault` was asked for, how many times `setDefault` ran): the store is a plain map, and the post-state of `SetDefault` states the key and value it writes.
- The annotation card and menu item components: rendering and accessibility, with no logic of the permissions service.
