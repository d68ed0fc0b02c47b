# CoachPro LMS — enrollment, progress and session handlers in Dafny

This project models the part of the CoachPro LMS WordPress plugin that changes data: the
handlers in `coachpro-lms.php` that work on the plugin's enrollment, progress and session
tables, and the settings route that writes its options.

The database is modelled as an abstract value. Each table is a sequence of rows in insertion
order. Every row has an AUTO_INCREMENT id, and the table keeps a counter for the next id
(`Tables.Table`). `Schema.Valid` is the invariant the handlers keep:
- ids are positive, below the counter, and increase with insertion order;
- the UNIQUE KEY `student_program` holds in both the enrollments and the progress table;
- a progress row exists for exactly the enrolled (student, program) pairs, because only the
  upsert creates progress rows. This clause relies on every database write succeeding
  (see "## Left out").

Each handler is a pure specification function from the old database (or options) to the new
one plus its reply: `Ok` (HTTP 200) or `Err(status, message)`. The lemmas about these
functions state what the handlers promise: upsert semantics, idempotence, the uniqueness
invariant, "an error changes nothing", and placeholder/argument agreement in the analytics
query. `Plugin.Store` is the stateful side. It is a class whose fields are the three tables
and the four options. Its methods perform the handlers' steps in order: the SELECT, then the
UPDATE or the INSERTs, the loop over an order's line items, and the four option writes. Each
method is proved to leave exactly the state its specification function gives.

Inputs that WordPress supplies are parameters of the model:
- nonce validity, the current user id and capabilities (`Common.AjaxContext`);
- `current_time('mysql')` (`now`);
- the `_cpl_program_id` product meta, as a map;
- whether `json_decode` accepts the rules text;
- the escaping functions used by `cpl_render_container`.

PHP truthiness is modelled where the code relies on it (`Common.Truthy`). The string `"0"` is
falsy, so a currency of `"0"` is stored as `USD` and an analytics date of `"0"` is not a
filter. `(bool)` on the text `"false"` gives true, so saving `woo_enable=false` as text
switches the WooCommerce integration on (`Settings.WooEnableTextFalse`).

The AJAX handlers are modelled as they behave once WordPress runs them. As written, the
plugin hooks the logged-in AJAX actions to methods its class does not declare, so PHP rejects
the callable and none of the four handlers runs (`Dispatch`, and "## Findings"). The model
follows the evidently intended binding (`Dispatch.Hooked`).

The enroll handler's permission test lets through any logged-in user, or any caller holding
`edit_coachpro` or `view_coachpro`. A caller with no user id then fails the "Missing data."
check. So `Enrollments.Enroll` succeeds exactly when the nonce is valid and both the user id
and the program id are non-zero.

## Model

| member | source | states |
|---|---|---|
| `Tables.Empty` | coachpro-lms.php:551-559 | a freshly created table has no rows and satisfies the auto-increment discipline |
| `Tables.Insert` | coachpro-lms.php:690-707 | an INSERT appends exactly one row after all existing rows, carrying the given data; its id differs from every existing id and the auto-increment discipline is kept |
| `Schema.Activated` | coachpro-lms.php:408-420 | a first activation leaves all three tables empty and valid |
| `Schema.TableNames` | coachpro-lms.php:109-122 | the eight logical tables are exactly the keys; each maps to the prefix followed by a non-empty physical name |
| `Schema.TableNamesDistinct` | coachpro-lms.php:109-122 | two different logical tables never get the same physical table name |
| `Enrollments.FindEnrollmentId` | coachpro-lms.php:685 | the lookup finds nothing iff no enrollment row has the pair; a found id belongs to a row with that pair |
| `Enrollments.SetEnrolled` | coachpro-lms.php:687-688 | the UPDATE by id changes exactly the rows with that id, to status 'enrolled' and updated_at now, and leaves every other row and the set of pairs unchanged |
| `Enrollments.InsertEnrollment` | coachpro-lms.php:690-696 | an enrollment insert adds the row's pair to the table's pairs; the unique key rejects a duplicate pair and leaves the table unchanged |
| `Enrollments.InsertProgress` | coachpro-lms.php:698-707 | a progress insert adds the row's pair; the unique key rejects a duplicate pair and leaves the table unchanged |
| `Enrollments.Upsert` | coachpro-lms.php:685-708 | after the upsert the enrolled pairs are the old ones plus (student, program); the session log is untouched |
| `Enrollments.UpsertNewPair` | coachpro-lms.php:689-708 | for a pair with no row: exactly one enrollment row (status 'enrolled', created = updated = now) and exactly one progress row (0 lessons total and done, score 0, last_active now) are appended with the next ids; sessions unchanged |
| `Enrollments.UpsertExistingPair` | coachpro-lms.php:685-688 | for a pair with row i: only row i changes, to status 'enrolled' and updated_at now; nothing is inserted into enrollments or progress and no other row changes |
| `Enrollments.UpsertPreservesValid` | coachpro-lms.php:685-708 | the upsert keeps the invariant: unique pairs in enrollments and progress, auto-increment ids, progress rows exactly for enrolled pairs |
| `Enrollments.UpsertMarksRow` | coachpro-lms.php:685-708 | after the upsert the pair has a row already in the state status 'enrolled' / updated_at now |
| `Enrollments.UpsertOnMarkedRow` | coachpro-lms.php:685-688 | an upsert whose pair's row is already 'enrolled' at the same time changes nothing |
| `Enrollments.UpsertIdempotent` | coachpro-lms.php:685-708 | enrolling the same pair twice at the same moment yields the same database as enrolling it once |
| `Enrollments.Enroll` | coachpro-lms.php:674-710 | nonce failure is 403 "-1"; no capability and not logged in is 403; missing student or program is 400; any error leaves the database unchanged; success iff nonce valid and both ids non-zero, and then the state is the upsert |
| `Enrollments.EnrollPreservesValid` | coachpro-lms.php:674-710 | every enroll call, successful or not, keeps the invariant, so any sequence of calls leaves at most one enrollment and one progress row per pair |
| `Enrollments.EnrollLeavesOneEnrolledRow` | coachpro-lms.php:674-710 | after a successful enroll the caller's pair has exactly one enrollment row, with status 'enrolled' |
| `Sessions.StartSession` | coachpro-lms.php:713-737 | nonce 403, not logged in 401, no program 400, each leaving the database unchanged; success iff all pass, appending exactly one system 'Session started.' row and changing nothing else |
| `Sessions.TouchProgress` | coachpro-lms.php:766-767 | the UPDATE sets last_active and updated_at to now on exactly the rows with the pair and keeps every other row and the set of pairs |
| `Sessions.SendMessage` | coachpro-lms.php:740-770 | nonce 403, not logged in 401, missing program or empty message 400, each writing nothing; on success exactly one 'user' row is appended, enrollments are untouched, and only the progress row matching (student, program) is touched |
| `Sessions.SessionHandlersPreserveValid` | coachpro-lms.php:713-770 | starting a session and sending a message keep the database invariant |
| `Sessions.FindProgress` | coachpro-lms.php:782-785 | the default zero row is returned iff the pair has no progress row; otherwise the returned row is a stored row with that pair |
| `Sessions.GetProgress` | coachpro-lms.php:773-787 | nonce 403, not logged in 401, no program 400; success iff all pass, answering the stored row of the caller's pair or, when there is none, the zero default |
| `Sessions.EnrollThenGetProgress` | coachpro-lms.php:698-707 | right after a first enrollment, get_progress answers the seeded row: 0 lessons total, 0 done, score 0, last_active at enrollment |
| `Sessions.SessionRows` | coachpro-lms.php:872 | the listing query holds exactly the log rows of the (student, program) pair, and with auto-increment ids their ids increase, which is the ORDER BY id ASC order |
| `Sessions.SessionRowsAppend` | coachpro-lms.php:872 | appending a row to the log appends it to a pair's listing exactly when it belongs to that pair |
| `Sessions.SendMessageThenList` | coachpro-lms.php:755-763 | a message sent successfully appears last in the sender's listing for that program |
| `Sessions.ItemsOf` | coachpro-lms.php:874-882 | the loop yields one item per row in row order, a null attachment read as ""; with increasing row ids the item ids strictly increase |
| `Sessions.ListSessions` | coachpro-lms.php:861-887 | not logged in 401, no program 400; otherwise one item per matching row, in order, ids strictly increasing |
| `WooCommerce.AutoEnroll` | coachpro-lms.php:925-946 | the loop's upserts, item by item in order, add to the enrolled pairs exactly the pairs of the items mapped to a non-zero program, and leave the session log alone |
| `WooCommerce.OrderCompleted` | coachpro-lms.php:915-947 | with the option off, WooCommerce absent, no order or a guest order (user 0), nothing changes; otherwise the line-item loop runs; the session log never changes |
| `WooCommerce.AutoEnrollKeys` | coachpro-lms.php:925-946 | the hook's upserts keep the invariant and add to the enrolled pairs exactly one pair per line item mapped to a non-zero program; unmapped items add nothing |
| `WooCommerce.AutoEnrollEnrolledPairs` | coachpro-lms.php:933-936 | when every mapped pair is already enrolled, the hook inserts nothing: enrolled pairs, progress and the log stay the same |
| `WooCommerce.OrderCompletedTwice` | coachpro-lms.php:915-947 | repeating the completion event, at any time, leaves the same enrolled pairs and the same progress table and log |
| `WooCommerce.OrderCompletedEnrolls` | coachpro-lms.php:915-947 | when the hook acts, the enrolled pairs afterwards are the old ones plus the order's mapped pairs |
| `Settings.ActivationOptions` | coachpro-lms.php:416-419 | a first activation stores currency USD (truthy), the integration off, rules `[]`, and no program page |
| `Settings.StoredCurrency` | coachpro-lms.php:994 | the stored currency is always truthy: a truthy input is kept, "" or "0" becomes USD |
| `Settings.SaveSettings` | coachpro-lms.php:981-1000 | no manage capability is 403, invalid rules JSON is 400, both leaving every option unchanged; success iff both checks pass, and then all four options hold the request's values and the reply is "Settings saved." |
| `Settings.CurrencyAlwaysSet` | coachpro-lms.php:994 | starting from a truthy currency, any save, failed or not, leaves a truthy currency |
| `Settings.SaveAllOrNothing` | coachpro-lms.php:982-997 | a save either changes no option or sets all four to values that depend only on the request |
| `Settings.WooEnableTextFalse` | coachpro-lms.php:986 | the `(bool)` cast turns the text "false" into an enabled integration |
| `Analytics.NoPercentNoPlaceholders` | coachpro-lms.php:903-904 | text without `%` contains no prepare placeholder |
| `Analytics.PlaceholdersConcat` | coachpro-lms.php:898-904 | placeholders of a concatenation are those of the parts, when the left part does not end in `%` |
| `Analytics.WhereMatchesArgs` | coachpro-lms.php:898-902 | a WHERE clause built from balanced filters has one placeholder per argument, in order and of the argument's kind |
| `Analytics.SuppliedText` | coachpro-lms.php:898-902 | the clause of the supplied filters is `1=1` followed by the program, from and to conditions that are present, in that order, and the arguments follow the same order |
| `Analytics.BuildFilter` | coachpro-lms.php:898-902 | the arguments are the supplied filters' values in the order program_id, from, to; the clause's placeholders match them one to one in kind; with no filters the clause is '1=1' and there are no arguments |
| `Analytics.PreparedQueryBalanced` | coachpro-lms.php:903-904 | for a table name without `%`, the whole statement passed to prepare has as many placeholders as arguments, each of the right kind |
| `Render.AttrsStringAppend` | coachpro-lms.php:582-584 | the attribute string of two joined attribute arrays is the concatenation of their attribute strings |
| `Render.RenderContainer` | coachpro-lms.php:580-590 | the loop builds one escaped data attribute per array entry, in order; the markup opens with the root div and noscript notice, and has a fallback block only for a truthy fallback |
| `Sanitize.Absint` | coachpro-lms.php:1008 | absint yields a non-negative value equal to x or -x |
| `Sanitize.AbsintArray` | coachpro-lms.php:1007-1009 | a non-array gives []; an array gives an array of the same length whose every element is the absint of the input's |
| `Sanitize.AbsintArrayIdempotent` | coachpro-lms.php:1007-1009 | sanitising an already sanitised array changes nothing |
| `Plugin.Store.Activate` | coachpro-lms.php:408-420 | after a first activation the store is valid, with empty tables and the activation options |
| `Plugin.Store.Upsert` | coachpro-lms.php:685-708 | the SELECT-then-UPDATE-or-INSERT steps leave exactly the upsert's state, keep the invariant and leave the options alone |
| `Plugin.Store.Enroll` | coachpro-lms.php:674-710 | the handler's steps produce exactly the state and reply of `Enrollments.Enroll` and keep the invariant |
| `Plugin.Store.StartSession` | coachpro-lms.php:713-737 | the handler's steps produce exactly the state and reply of `Sessions.StartSession` |
| `Plugin.Store.SendMessage` | coachpro-lms.php:740-770 | the INSERT then the UPDATE produce exactly the state and reply of `Sessions.SendMessage` |
| `Plugin.Store.OrderCompleted` | coachpro-lms.php:915-947 | the loop over line items, reading the stored `cpl_woo_enable` option, produces exactly the state `WooCommerce.OrderCompleted` gives and keeps the invariant |
| `Plugin.Store.SaveSettings` | coachpro-lms.php:979-1002 | the checks and four sequential option writes produce exactly the options and reply of `Settings.SaveSettings`; the tables are untouched |
| `Plugin.SwitchedOffHookDoesNothing` | coachpro-lms.php:916 | after a save whose woo_enable casts to false, a completed order changes nothing |
| `Plugin.EnrollTwice` | coachpro-lms.php:674-710 | a verified client scenario: after two enrolls of one pair from a fresh install there is one enrollment row, stamped by the second call, and get_progress answers the row the first call seeded |
| `Dispatch.AsWrittenHandlersUnreachable` | coachpro-lms.php:41-47 | each logged-in AJAX action is hooked to a name that exists only as a property (790-793), so running it is an invalid callable |
| `Dispatch.EnrollRequestAsWrittenFails` | coachpro-lms.php:41 | a logged-in enroll request, as written, reaches no handler; its property names `CoachPro_LMS_Ajax_Ext::enroll` |
| `Dispatch.HookedReachesHandlers` | coachpro-lms.php:790-793 | with the intended binding, each logged-in action runs its own handler |
| `Dispatch.AnonymousRequestsGuarded` | coachpro-lms.php:42-48 | anonymous requests run `ajax_forbidden` (398-400), which answers 401 "Authentication required.", as written and as intended |

## Left out

- WordPress wiring other than the AJAX binding is not modelled: the singleton bootstrap, post types and taxonomy, admin menus, asset enqueueing, textdomain loading. The AJAX binding is modelled in `Dispatch` as far as which callable runs, and, for the anonymous guard, the reply it sends.
- `Schema.Activated`, `Settings.ActivationOptions`, `Plugin.Store.Activate`: model a first activation only. On a re-activation `dbDelta` keeps the existing tables and rows, `add_option` keeps every existing option, and `uninstall.php` drops no tables. So a re-activation leaves tables and options as they were, which trivially keeps `Schema.Valid`.
- Database write failures are not modelled. The handlers ignore `$wpdb`'s return values and reply success anyway; the model lets only a duplicate-key INSERT fail. The third clause of `Schema.Valid` (progress rows exactly for enrolled pairs) depends on this. If the progress INSERT failed after the enrollment INSERT, the pair would stay enrolled without a progress row, and later enrolls would take the UPDATE branch and never seed it.
- `Analytics.PreparedQueryBalanced`: counts only `%d`, `%s` and `%f` and does not treat `%%` as an escape (see `Analytics.Placeholders`). With no filters, `prepare` receives a statement without any placeholder, for which WordPress emits a `_doing_it_wrong` notice; the model does not capture that notice.
- Table creation (`dbDelta`) and role/capability installation are not modelled. The unique keys and the auto-increment ids survive as `Schema.Valid`.
- The profiles, recommendations, analytics, assessments and responses tables are not modelled, because no handler in the core writes them. The analytics query's result rows are not modelled either; only the statement and its arguments are.
- Nonce checks, capability checks, `get_current_user_id`, `current_time`, `absint` of request data, `sanitize_text_field`, `wp_unslash`, `wp_kses_post`, `esc_url_raw`, `esc_attr`, `esc_html__` and `json_decode` are WordPress or PHP functions. They are inputs or function parameters of the model. On the `/sessions` output path, `wp_kses_post` and `esc_url_raw` are taken as identity.
- `__()` translation is not modelled; messages are the English source strings. The JSON envelope of replies is not modelled either.
- The check-then-act race in the upsert is not modelled, because the model is sequential. Two concurrent requests could both miss the SELECT; the unique key would then reject the second enrollment insert.
- The DECIMAL(5,2) `avg_score` is kept as an integer number of hundredths. Only the seeded 0 is ever written.
- Integer widths are not modelled: BIGINT/INT UNSIGNED columns and PHP integers are unbounded naturals or integers.
- `Tables.Insert`: a rejected duplicate insert leaves the counter unchanged. InnoDB may consume an auto-increment value anyway, leaving a gap in the ids.
- `WooCommerce.OrderCompleted`: reads the clock once per event. The source calls `current_time` once per line item, so the model does not capture timestamps that differ between items of one order.
- `Sanitize.AbsintArray`: models arrays as sequences, so non-sequential PHP keys (which `array_map` preserves) and `intval` on non-integer elements are not captured.
- `cpl_sanitize_text_array`, the shortcode closures, the admin templates and the JSON-LD course microdata are presentation that calls foreign functions, and are not modelled. So are the `/programs` and `/coaches` routes (thin `WP_Query` calls), `cpg-main.php`, `templates/shortcode-modal.php` and `uninstall.php`.

## Findings

| source | as written | input that shows it | evidently intended | confidence | as-written member | corrected member |
|---|---|---|---|---|---|---|
| coachpro-lms.php:41-47, 790-793 | the logged-in AJAX actions are hooked to `[$this, 'ajax_enroll_program']` and its siblings; `CoachPro_LMS` declares no such methods and no `__call`, and the handlers are only assigned as dynamic properties, which PHP does not consult when running a callable | a logged-in user's `coachpro_enroll_program` request: PHP rejects the callable, and no enrollment, session or progress handler runs; only the WooCommerce hook reaches the upsert | each action runs the static handler its property names (`CoachPro_LMS_Ajax_Ext::enroll`, `start_session`, `send_message`, `get_progress`) | high, from reading the code; not executed | `Dispatch.HookedAsWritten`, `Dispatch.EnrollRequestAsWrittenFails` | `Dispatch.Hooked`, `Dispatch.HookedReachesHandlers` |
