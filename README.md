# EduDash Pro: navigation, view flags and sign-in, in Dafny

This project models the logic of the EduDash Pro dashboard: the sidebar
navigation chosen by the session's role claim, the two view flags of the
dashboard layout, the credentials check of the sign-in provider, and the
`jwt` and `session` callbacks that carry the role claim from sign-in to
every session read.

- `wrappers.dfy` (`Wrappers`): `Option`, which stands for a JavaScript value that may be `undefined`.
- `navigation.dfy` (`Navigation`): the base items, the four-entry role table, the STUDENT default and the `isActive` test. These are pure functions with lemmas about prefix, length, default behaviour, distinctness and "at most one item is active".
- `layout.dfy` (`Layout`): the `sidebarOpen` and `profileDropdownOpen` flags. They are a class with one method per click handler. Each method is tied to a pure transition function `Step`, and lemmas are stated about `Step`.
- `auth.dfy` (`Auth`): `authorize` as a pure function over optional credentials. bcrypt is an abstract `Hash`/`Compare` pair whose contract is that a password matches a hash exactly when it is the hashed password.
- `callbacks.dfy` (`Callbacks`): the token and the session as classes. The `jwt` and `session` callbacks update them in place. `SignIn` composes `authorize`, `jwt` and `session` and states the end-to-end result, including the navigation list that the resulting role selects.

A missing form field is `None`. JavaScript's truthiness test on a string
is `Auth.Given`: the string is present and not empty.

## Model

| member | source | states |
|---|---|---|
| `Navigation.RoleOf` | components/layout/DashboardLayout.tsx:65-66 | a claim selects a table entry exactly when it equals one of the four keys STUDENT, TEACHER, PARENT, ADMIN; an absent claim or any other string selects nothing |
| `Navigation.NavigationItems` | components/layout/DashboardLayout.tsx:37-69 | the list starts with Dashboard (/dashboard), Lessons (/dashboard/lessons), Assignments (/dashboard/assignments) in that order, continues with the selected role's list, has 6 items for TEACHER and ADMIN and 5 otherwise, and its names and hrefs are pairwise distinct |
| `Navigation.ListDistinct` | components/layout/DashboardLayout.tsx:38-68 | for each of the four roles, the base list followed by that role's list has pairwise distinct names (the render key) and pairwise distinct hrefs |
| `Navigation.FallbackIsStudent` | components/layout/DashboardLayout.tsx:44-66 | an absent or unknown role claim yields exactly the STUDENT list, i.e. the base followed by My Progress and Class |
| `Navigation.TeacherNavigation` | components/layout/DashboardLayout.tsx:49-53 | for TEACHER the list is the base followed by Students, Analytics, Grading |
| `Navigation.AdminNavigation` | components/layout/DashboardLayout.tsx:58-62 | for ADMIN the list is the base followed by Users, Analytics, System |
| `Navigation.NoneActiveIff` | components/layout/DashboardLayout.tsx:107-108 | no item is active for a path exactly when no item's href equals that path |
| `Navigation.AtMostOneActive` | components/layout/DashboardLayout.tsx:107-111 | in any item list with pairwise distinct hrefs, at most one item is active for any path |
| `Navigation.NavigationAtMostOneActive` | components/layout/DashboardLayout.tsx:71-111 | for every role claim and every path, at most one rendered navigation item is active |
| `Layout.Step` | components/layout/DashboardLayout.tsx:98-222 | the menu button opens the sidebar; the close button, a nav-link click and an overlay click close it; none of these touches the dropdown flag; the avatar button negates the dropdown flag and the settings link clears it, neither touching the sidebar flag |
| `Layout.ProfileButtonTwice` | components/layout/DashboardLayout.tsx:166 | pressing the avatar button twice restores both flags |
| `Layout.SidebarEventsIdempotent` | components/layout/DashboardLayout.tsx:98-137 | repeating a sidebar handler changes nothing, and every sidebar handler other than the menu button leaves the sidebar closed |
| `Layout.DashboardLayout.constructor` | components/layout/DashboardLayout.tsx:31-32 | both flags start false |
| `Layout.DashboardLayout.ClickMenuButton` | components/layout/DashboardLayout.tsx:136-137 | sets `sidebarOpen`, keeps `profileDropdownOpen`; agrees with `Step` |
| `Layout.DashboardLayout.ClickSidebarCloseButton` | components/layout/DashboardLayout.tsx:97-98 | clears `sidebarOpen`, keeps `profileDropdownOpen`; agrees with `Step` |
| `Layout.DashboardLayout.ClickNavLink` | components/layout/DashboardLayout.tsx:119 | clears `sidebarOpen`, keeps `profileDropdownOpen`; agrees with `Step` |
| `Layout.DashboardLayout.ClickOverlay` | components/layout/DashboardLayout.tsx:219-223 | clears `sidebarOpen`, keeps `profileDropdownOpen`; agrees with `Step` |
| `Layout.DashboardLayout.ClickProfileButton` | components/layout/DashboardLayout.tsx:165-166 | negates `profileDropdownOpen`, keeps `sidebarOpen`; agrees with `Step` |
| `Layout.DashboardLayout.ClickProfileSettingsLink` | components/layout/DashboardLayout.tsx:188-191 | clears `profileDropdownOpen`, keeps `sidebarOpen`; agrees with `Step` |
| `Auth.Hash` | lib/auth.ts:36-45 | a candidate password matches the hash of a password exactly when the two are equal |
| `Auth.Authorize` | lib/auth.ts:26-58 | null when the credentials, the email or the password is missing or empty; null for every email other than admin@edudash.com whatever the password; success exactly for admin@edudash.com with admin123; on success exactly id "1", email admin@edudash.com, name "Admin User", role "ADMIN" and no password |
| `Callbacks.Jwt` | lib/auth.ts:62-67 | with a user, the token's role becomes the user's role; without one it keeps its role; sub, name, email and picture never change; the same token object is returned |
| `Callbacks.SessionCallback` | lib/auth.ts:68-74 | with a token, the session user's id becomes the token's sub and its role the token's role; without one they are kept; name, email and image never change; the same session and user objects are returned |
| `Callbacks.SignIn` | lib/auth.ts:26-74 | a successful authorize followed by `jwt` and `session` leaves role ADMIN in the token and in the session user, the session id equal to the sub the token was issued with, the token's other claims and the session user's name, email and image unchanged, and a sidebar of the base items followed by the ADMIN items; a refused sign-in changes neither object |

## Left out

- Rendering is not modelled: JSX, Tailwind class strings, icon components, `cn`, `Link` and `Image` (components/layout/DashboardLayout.tsx:77-226). Icons are kept only as identifiers in `Navigation.Icon`.
- `handleSignOut` is not modelled. It is an asynchronous call into the session library that navigates away (components/layout/DashboardLayout.tsx:73-75).
- The role lookup indexes a JavaScript object (components/layout/DashboardLayout.tsx:66). A claim that names an inherited member, such as "toString", "constructor" or "__proto__", yields a function or `Object.prototype`. Either is truthy, so the `||` default never applies. The spread at line 68 then throws a TypeError, because the value is not iterable. The model does not reproduce that exception: it treats every string other than the four keys as unknown and gives it the STUDENT list. For those claims the STUDENT default is the model's choice, not the program's behaviour.
- The nav-link handler also navigates to the link's href. That navigation, and the new `pathname` it produces, belong to the router. `ClickNavLink` models only the flag change.
- `Auth.Hash`: bcrypt's salt, cost factor 10, random output and asynchrony are not modelled. The model assumes that `Compare` accepts only the hashed password, i.e. that hashing is injective. bcrypt is not: it appends a NUL byte to the password and repeats the result cyclically to fill its 72-byte key. So it also accepts candidates built by repeating the real password with NUL bytes in between, such as `"admin123\0admin123"`, and any candidate that starts with eight copies of `"admin123\0"`.
- `Auth.Authorize`: its "succeeds exactly for admin@edudash.com with admin123" holds under the injective-hash assumption above. The source's `authorize` (lib/auth.ts:42-47) also succeeds for that email with the NUL-repeated passwords bcrypt accepts, and the model returns `None` for those.
- The Google OAuth provider, environment variables, `session.strategy`, `pages`, `secret` and the `declare module` type augmentations are not modelled (lib/auth.ts:12-19,76-100). They are configuration of the session library.
- How the session library builds the token before `jwt` runs (for example, setting `sub` from the user id) is not modelled. `SignIn` takes the token it is given and states that the session id is the `sub` that token carried before the callbacks ran, which they leave unchanged.
- The dashboard page's session gate (loading, redirect to /login, proceed) and its per-role mock statistics and activities are not modelled. They live in app/(dashboard)/dashboard/page.tsx, which is not part of this model.
- components/ui/Card.tsx, contexts/AuthContext.tsx and types/next-pwa.d.ts are not part of this model. They are presentational wrappers, a provider wrapper with an empty value, and type declarations.
