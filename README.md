# CVAT IAM permission bridge — a Dafny model

This project models the authorization bridge `cvat/apps/iam/permissions.py`.
The bridge connects CVAT's REST views to an Open Policy Agent decision service.
For each request it:

- builds the JSON payload that describes who is asking, in which organization, and for which scope and resource;
- creates one evaluator (a subclass of `OpenPolicyAgentPermission`) for each class whose `create` accepts the view;
- posts every payload to that evaluator's `allow` rule and combines the answers with `all`;
- for list filtering, posts the same payload to the `filter` rule and folds the returned postfix tokens into one query predicate.

The modules follow the parts of the file:

- `Wrappers` holds `Option`, `Result` and a dictionary `get`.
- `Predicates` is a stand-in for Django's `Q` objects. It also models `queryset.filter` over a sequence of records.
- `Rpn` covers the stack machine of `filter`. `Fold` is its specification, and the method `Translate` is the loop as written, proved equal to that specification.
- `Urls` models Python's `str.replace`, as applied to the allow URL.
- `Payloads` holds the records sent to the policy service, plus the `auth` and `resource` parts.
- `Scopes` holds the five `scope` tables.
- `Permissions` covers the evaluator classes and their `create` methods, and the `PolicyEnforcer` methods. `check_permission` is a loop that extends a list.

The policy service is a function parameter:

- `decide(url, payload)` is the boolean that `__bool__` gets back.
- `respond(url, payload)` is the token array the `filter` endpoint returns.

The data URL prefix `settings.IAM_OPA_DATA_URL` is a string parameter. The two ORM queries are inputs, passed in a `Lookups` record:

- the number of organizations the caller owns;
- the caller's membership in the target organization.

Where the code differs from what the protocol suggests, the model follows the code:

- **Operand order.** A binary operator pops the top node first. It pushes `op(top, second)`, so `[A, B, '|']` becomes `Or(B, A)`, not `Or(A, B)`. `Rpn.RoundTrip` states the general case:
  - Translating a predicate's postfix form swaps the operands of every binary node.
  - Each binary node is also combined the way `Q` combines.
  - Without empty field maps the result is exactly the operand-swapped predicate (`Rpn.BuildIsMirror`).
- **An empty `Q` is dropped from `'|'` and `'&'`.** Django's `Q._combine` returns the other operand unchanged when one side has no conditions. So `[{}, {"a": 1}, '|']` keeps only the records with `a == 1`, and is not always true.
- **Evaluators without a scope still count.** An evaluator whose action is missing from its table is still created and still consulted. Its scope is sent as null and its answer decides the outcome.
- **`all` stops early.** It stops at the first denial, so later evaluators are never asked. `Permissions.Consulted` records who is asked.
- **No combination of filters.** `filter` belongs to one evaluator. Nothing combines the filters of several evaluators.

## Model

| member | source | states |
|---|---|---|
| Wrappers.Lookup | cvat/apps/iam/permissions.py:90-97 | `dict.get(key, None)`: `Some` exactly when the key is in the table, holding the table's value |
| Predicates.Select | cvat/apps/iam/permissions.py:70 | `queryset.filter(q)` keeps exactly the records on which the predicate holds, and never adds records |
| Predicates.SelectTrue | cvat/apps/iam/permissions.py:67-70 | the always-true predicate `Q()` leaves the query set unchanged, order included |
| Rpn.Step | cvat/apps/iam/permissions.py:54-63 | one loop turn succeeds iff the token is a field map or a known operator with enough operands. On success the height changes by +1 (map), 0 (`'~'`) or -1 (`'|'`, `'&'`) |
| Rpn.StepShape | cvat/apps/iam/permissions.py:55-63 | a pop with too few operands fails as an empty-list pop, even for an unknown operator. An unknown operator with operands fails the `ops_dict` lookup. A map pushes one leaf of all its equalities, and `'~'` replaces the top node. `'|'`/`'&'` replace the top two by the first popped node OR-ed (or AND-ed) with the second, with `Q`'s rule for an empty operand. Everything below is unchanged |
| Predicates.OrQ | cvat/apps/iam/permissions.py:50 | `Q.__or__`: an empty operand is ignored, so the result means the other operand. With two non-empty operands it holds iff either holds. The result is empty iff both operands are |
| Predicates.AndQ | cvat/apps/iam/permissions.py:51 | `Q.__and__`: it holds iff both operands hold, whichever side is empty. The result is empty iff both operands are |
| Rpn.Translate | cvat/apps/iam/permissions.py:48-70 | for token lists without `'~'` (see Left out), the in-place push/pop loop with the residual check returns exactly `Translation(tokens)`, the fold of `Step` followed by: no node gives `Q()`, one node gives that node, more nodes fail the assert |
| Rpn.FoldArity | cvat/apps/iam/permissions.py:54-63 | the loop completes iff no step underflows or meets an unknown operator. The final height is the start height plus the tokens' net effect |
| Rpn.TranslationArity | cvat/apps/iam/permissions.py:54-68 | for token lists without `'~'`, `filter` yields a predicate iff the tokens are consumable from the empty stack and leave at most one node. A consumable sequence that fails leaves `Net > 1` nodes and reports that count |
| Rpn.FoldFailsAtFirstBadToken | cvat/apps/iam/permissions.py:54-61 | the first failing token aborts the whole loop with that token's error. No partial result survives |
| Rpn.FoldPostfix | cvat/apps/iam/permissions.py:54-63 | feeding a predicate's postfix form to the loop pushes exactly `Build` of it (operands swapped, `Q`-combined), whatever lies below and whatever follows |
| Rpn.BinaryPostfix | cvat/apps/iam/permissions.py:56-61 | the binary-node case of `FoldPostfix`: the operator combines the two pushed images as the top one OR-ed (or AND-ed) with the second |
| Rpn.RoundTrip | cvat/apps/iam/permissions.py:54-68 | translating a predicate's postfix form always succeeds and returns `Build` of it |
| Rpn.BuildIsMirror | cvat/apps/iam/permissions.py:56-61 | with no empty field map and no `Q()`, no operand is dropped. The loop builds exactly the predicate with every AND/OR's operands swapped, and that predicate is non-empty |
| Rpn.MirrorPreservesMeaning | cvat/apps/iam/permissions.py:56-61 | swapping the operands of AND/OR changes no record's outcome under the model's evaluation |
| Rpn.TranslationPreservesMeaning | cvat/apps/iam/permissions.py:54-70 | every postfix form translates. When it has no empty field map, the result holds on exactly the records on which the original holds, under the model's evaluation (see `'~'` under Left out) |
| Rpn.EmptyTranslation | cvat/apps/iam/permissions.py:65-68 | an empty token list yields the always-true `Q()` |
| Rpn.SingleLeaf | cvat/apps/iam/permissions.py:62-63 | one mapping yields one leaf that holds iff every key is present with the given value |
| Rpn.OrOfTwoLeaves | cvat/apps/iam/permissions.py:56-61 | `[A, B, '|']` always translates, and gives `Or(B, A)` when both maps are non-empty. It holds on a record iff a non-empty A or a non-empty B matches it, or both are empty |
| Rpn.EmptyOperandIgnored | cvat/apps/iam/permissions.py:61 | an empty map on either side of `'|'` yields the other leaf unchanged |
| Rpn.EmptyOperandNarrows | cvat/apps/iam/permissions.py:61-70 | `[{}, {"a": 1}, '|']` filters out a record with `a == 2` |
| Rpn.ResidualNodesFail | cvat/apps/iam/permissions.py:65-66 | two field maps with no operator leave two nodes, and the assert fails |
| Urls.ReplaceAll | cvat/apps/iam/permissions.py:46 | the definition of `str.replace` (left to right, without overlaps). Its contract: the pattern replaced by itself leaves the text unchanged, a replacement no shorter than the pattern never shortens the text, and one of equal length keeps the length. The rest is proved in `ReplaceAllFree`, `ReplaceLeftmost`, `ReplaceAllAppend` and `FilterUrl` |
| Urls.ReplaceLeftmost | cvat/apps/iam/permissions.py:46 | the leftmost occurrence is replaced first: the text before it is copied unchanged, and scanning resumes just after it, so an overlapping later occurrence is not replaced |
| Urls.ReplaceAllFree | cvat/apps/iam/permissions.py:46 | text without an occurrence of the pattern is unchanged |
| Urls.NoStraddle | cvat/apps/iam/permissions.py:46 | with a head that cannot recur inside the pattern, no occurrence straddles the join of two strings |
| Urls.ReplaceAllAppend | cvat/apps/iam/permissions.py:46 | under that condition, replacing in a concatenation replaces in each part |
| Urls.ReplaceWhole | cvat/apps/iam/permissions.py:46 | the pattern alone becomes the replacement |
| Urls.SlashNameFree | cvat/apps/iam/permissions.py:85 | `'/' + name` holds no `/allow` when `name` has no slash and does not begin with `allow` |
| Urls.ReplaceTrailing | cvat/apps/iam/permissions.py:46 | a trailing occurrence after occurrence-free text is the only one replaced |
| Urls.FilterUrl | cvat/apps/iam/permissions.py:46 | `prefix + '/name/allow'` becomes `prefix + '/name/filter'` when the prefix contains no `/allow` |
| Payloads.AuthOf | cvat/apps/iam/permissions.py:20-39 | `auth.user` holds the user id and privilege name. `organization` is null iff there is none. `is_owner` iff the owner id is the user id. `role` is null iff there is no membership, and the membership's role otherwise |
| Payloads.OrganizationResourceOf | cvat/apps/iam/permissions.py:186-200 | null iff there is no object. Otherwise it holds the object id and owner id, `is_owner` iff the owner is the caller, and the looked-up membership's role or null |
| Payloads.MembershipResourceOf | cvat/apps/iam/permissions.py:229-236 | the membership's role and the id of its user |
| Scopes.ServerScope | cvat/apps/iam/permissions.py:88-97 | each scope is returned for exactly the actions listed for it; every other action gives `None` |
| Scopes.UserScope | cvat/apps/iam/permissions.py:118-124 | `LIST`/`VIEW_SELF`/`VIEW` for exactly `list`/`self`/`retrieve`; `None` otherwise |
| Scopes.LambdaScope | cvat/apps/iam/permissions.py:142-152 | keyed on `(basename, action)`: only `function` and `request` map. Each `function` action has its own scope. The four `request` actions, and only they, give `CALL_OFFLINE` |
| Scopes.OrganizationScope | cvat/apps/iam/permissions.py:176-184 | the five organization actions and their scopes; `None` otherwise |
| Scopes.MembershipScope | cvat/apps/iam/permissions.py:220-227 | the four membership actions and their scopes; `None` otherwise |
| Permissions.Package | cvat/apps/iam/permissions.py:85 | each class's rule package (`server` … `issues`, in the URLs at lines 85, 111, 139, 167, 215 and 261-344) is a non-empty path segment without `/` that cannot begin `allow` |
| Permissions.PackagesDistinct | cvat/apps/iam/permissions.py:85 | no two classes share a rule package |
| Permissions.AllowUrl | cvat/apps/iam/permissions.py:85 | `self.url`: the data URL prefix, then `/`, the class's package, and `/allow` |
| Permissions.Applies | cvat/apps/iam/permissions.py:77 | the basename tests of `create` (lines 77, 103, 131, 159, 207). Only live classes ever apply, and only to the six governed basenames |
| Permissions.Decision | cvat/apps/iam/permissions.py:41-43 | `bool(evaluator)`: the policy service's answer for the evaluator's own URL and payload |
| Permissions.Governing | cvat/apps/iam/permissions.py:73-211 | a class's `create` accepts a basename iff that class is the one governing kind. Exactly `server`, `user`, `function`, `request`, `organization` and `membership` are governed |
| Permissions.Payload | cvat/apps/iam/permissions.py:83-218 | every payload carries `AuthOf` and the kind's scope, even a null one. `resource` is set exactly for detail views of users, organizations and memberships, and is null exactly for an organization detail view without an object. Only organizations send `user.num_resources`, the count looked up |
| Permissions.Create | cvat/apps/iam/permissions.py:73-81 | `create` returns at most one evaluator. It returns one iff the basename matches, never for the dead classes, and that evaluator posts to the kind's `allow` URL with the kind's payload |
| Permissions.FitsGoverned | cvat/apps/iam/permissions.py:113-236 | an object that fits the view fits every kind whose `create` accepts the view, so each constructor can read it: the user reads at lines 113-116, the organization reads at lines 169-170 and 186-198, and the membership reads at lines 217-218 and 229-236 |
| Permissions.ExtendKeeps | cvat/apps/iam/permissions.py:351-352 | one `permissions.extend(perm.create(...))` moves the next class's evaluators from the pending part to the collected list |
| Permissions.CreateAllGoverned | cvat/apps/iam/permissions.py:351-352 | over distinct classes, only the governing class contributes, and only when it is among them |
| Permissions.SoleEvaluator | cvat/apps/iam/permissions.py:349-352 | a view gets at most one evaluator: none for an ungoverned basename, otherwise the governing kind's evaluator |
| Permissions.DeadKindsContributeNothing | cvat/apps/iam/permissions.py:240-344 | every collected evaluator is of a live class; `InvitationPermission` … `IssuePermission` never contribute |
| Permissions.AllAllow | cvat/apps/iam/permissions.py:354 | `all(permissions)` holds iff every evaluator's decision is true, and holds on an empty list |
| Permissions.Consulted | cvat/apps/iam/permissions.py:354 | `all` asks a prefix of the list. Everyone asked before the last allowed. It asks everyone iff all allow, and the last one asked denied otherwise |
| Permissions.CheckPermission | cvat/apps/iam/permissions.py:349-354 | the collecting loop plus `all`: true iff every created evaluator allows. It reports exactly the evaluators `all` asks |
| Permissions.HasPermission | cvat/apps/iam/permissions.py:356-360 | detail views are allowed without asking anyone. Other views give exactly `check_permission` with no object |
| Permissions.HasObjectPermission | cvat/apps/iam/permissions.py:362-363 | equals `check_permission` with the object |
| Permissions.ScopeNoneStillDecides | cvat/apps/iam/permissions.py:349-354 | a governed view gets one evaluator whatever its scope (null included). That evaluator's answer is the outcome |
| Permissions.UngovernedViewAllowed | cvat/apps/iam/permissions.py:354 | a view no class governs is allowed by vacuous truth, and no one is asked |
| Permissions.Filter | cvat/apps/iam/permissions.py:45-70 | for answers without `'~'`: posts the evaluator's payload to its URL with `/allow` replaced by `/filter`. A failing translation gives its error and never a partial result; otherwise exactly the matching records |
| Permissions.FilterEndpoint | cvat/apps/iam/permissions.py:46 | for every class, the filter URL is `prefix + '/<package>/filter'` when the prefix contains no `/allow` |
| Permissions.EmptyFilterAnswer | cvat/apps/iam/permissions.py:65-70 | an empty answer gives `Q()`, which leaves the query set as it is |
| Permissions.AdminListsUsers | cvat/apps/iam/permissions.py:109-124 | an admin outside any organization listing users gets one `UserPermission` evaluator on the users rule. Its scope is `LIST`, with no resource and a null organization |
| Permissions.OwnerRetrievesOrganization | cvat/apps/iam/permissions.py:165-200 | an owner retrieving an organization sends scope `VIEW` and `is_owner` true. The role comes from the membership lookup, null without one, and the owned-organization count is sent too |
| Permissions.OwnedOrSharedFilter | cvat/apps/iam/permissions.py:54-70 | `[{owner_id: 7}, {shared: true}, '|']` keeps exactly the records owned by user 7 or shared |

## Left out

- `'~'`: the source maps it to `operator.not_`, which computes Python's `not q` on a `Q` object, not `~q`. `not q` is a bool saying whether `q` has no conditions. In the source, any answer that contains a `'~'` therefore fails in `filter`:
  - A bool met by a later `'|'` or `'&'` with a `Q` operand raises a type error at line 61. `Q._combine` rejects a bool, and `bool | Q` has no handler.
  - Two bools combine into a bool, so the bool survives.
  - A bool as the final node makes `queryset.filter` raise at line 70.
  - A bool among several final nodes fails the assert at line 66.
- The model keeps only the arity of `'~'` (pop one, push one) as a `Not` node, and `Predicates.Eval` reads `Not` as negation. That is the protocol's intent, not what the source computes. For token lists containing `'~'`, and for predicates containing `Not`, what every `Rpn` member and `Permissions.Filter` state describes the model, not the program. This covers, among others, `Rpn.Step`, `Rpn.StepShape`, `Rpn.FoldArity`, `Rpn.FoldPostfix`, `Rpn.BinaryPostfix`, `Rpn.RoundTrip`, `Rpn.BuildIsMirror`, `Rpn.Translate`, `Rpn.TranslationArity`, `Rpn.TranslationPreservesMeaning` and `Rpn.MirrorPreservesMeaning`. In the source, a turn that consumes `'~'` leaves a bool on the stack, and a later step with it or the final `queryset.filter` fails.
- Rpn.TranslationPreservesMeaning: the truth table is preserved only for predicates without an empty field map. Django drops an empty operand of `'|'` (`Rpn.EmptyOperandNarrows`), so with one the translation can keep fewer records than the encoded expression.
- `Q` structure: Django also flattens nested combinations with the same connector into one node. That changes the tree but not the records selected, and is not modelled.
- Field lookups: a leaf is plain equality per field. Django lookups such as `field__in` and `a__b`, and JSON values other than integers, strings, booleans and null, are not modelled. A field missing from a record makes the leaf false.
- HTTP: `requests.post` and decoding the JSON answer (lines 42-43, 47, 54) are the oracle parameters `decide` and `respond`. Transport errors, timeouts and malformed JSON are not modelled.
- `settings.IAM_OPA_DATA_URL` is the `prefix` parameter.
- `Urls.FilterUrl`, `Permissions.FilterEndpoint`: stated only for a prefix that contains no `/allow`. For other prefixes they say nothing.
- Database calls: `Organization.objects.filter(...).count()` and `Membership.objects.filter(...).first()` are inputs (the `Lookups` record), and `queryset.filter` works on a sequence of records. Evaluating a query in a real database is not modelled.
- `__subclasses__()` is the fixed list `Permissions.Registry` of the twelve classes in declaration order.
- Dead classes: the `get_scope` methods of the dead classes (lines 248-259 and following) are never reached from `create`, so they are not modelled. Their class-level `url` attributes are modelled by `Permissions.Package` and `Permissions.AllowUrl`.
- Payload construction is a pure function returning an immutable record. The in-place updates of the nested `self.payload` dictionary in each `__init__` are not modelled step by step.
- Views without an `action` attribute, or with `action` None, are not modelled. The model's `action` is always a string, and an unmapped one gives `None`, the same as the source's `.get`.
- Detail views whose object the constructor cannot read are not modelled; the model requires `Permissions.ObjectFits` instead of raising `AttributeError`. The source would raise in three cases:
  - `UserPermission` reads `obj.id`, so it needs some object.
  - `MembershipPermission` reads `obj.role` and `obj.user.id`, so it needs a membership.
  - `OrganizationPermission` reads `obj.id` and `obj.owner.id` only when an object is given, so any given object must be an organization. A missing object gives a null resource, which is modelled.
- The `request`, `view` and `obj` attributes kept on each evaluator are not modelled beyond the payload and URL they determine.
