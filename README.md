# Speedment code generation helpers, modelled in Dafny

This project models six small components of Speedment, a Java code generator
that builds entity and manager classes from database metadata:

- `StatementView` renders a statement of the generated-code model. A simple
  statement renders to the text it holds. A composite statement renders each
  child through the generator and joins the fragments with the empty separator.
- `ParameterView` renders a method parameter as its rendered type, a space and
  its name.
- `OptionalUtil` turns an `Optional` into a stream of zero or one element, and
  unwraps one level of `Optional`.
- `AbstractSpeedmentPredicateView` renders a field predicate to an SQL fragment,
  and wraps the fragment's SQL in a negation when the predicate is negated.
- `EntityTranslatorSupport` picks the field interface and implementation types
  for a column, finds the foreign key column that refers to a column, and builds
  the fixed method shapes of an entity (`persist`, `update`, `remove`, their
  listener forms, and the two `toJson` methods).
- `AbstractLifecycle` holds a component's life-cycle state and six single-slot
  hooks. Setters overwrite one slot. `preInitialize()` … `postStop()` run the
  hook in their slot.

Files: `wrappers.dfy` (Java's `Optional`, the thrown exceptions as `Error`,
`Result` and `Outcome`), `codegen.dfy` (the generator's filtering of present
fragments and `CodeCombiner.joinIfNotEmpty`, whose code is not part of this
model), `code_model.dfy` (types, generics, fields, imports, methods),
and one file per component: `statement_view.dfy`, `parameter_view.dfy`,
`optional_util.dfy`, `predicate_view.dfy`, `entity_translator_support.dfy`,
`lifecycle.dfy`.

Pure code is modelled as functions and lemmas. State that the source changes
in place is modelled by classes. `SqlPredicateFragment.setSql` changes a
fragment in place. `File.add` adds an import to the caller's file. The
lifecycle fields are overwritten by their setters. A Java `null` argument is
modelled as `Empty`, and the `NullPointerException` from `requireNonNull` as
`Fail(NullPointer)` or `Failure(NullPointer)`.

A composite statement with no children renders to a present empty string,
because `StatementView.render` wraps the joined text in `Optional.of`
(StatementView.java line 38).

## Model

| member | source | states |
|---|---|---|
| `StatementView.Render` | src/main/java/com/speedment/codegen/view/java/StatementView.java:34-41 | every statement renders to a present fragment; a simple statement renders to exactly its own text; a composite with no children renders to the present empty string |
| `StatementView.RenderEach` | src/main/java/com/speedment/codegen/view/java/StatementView.java:38 | the generator yields one fragment per child, in child order, each present |
| `StatementView.RenderTraced` | src/main/java/com/speedment/codegen/view/java/StatementView.java:34-41 | rendering with the generator calls recorded gives the same fragment as `Render`; a simple statement hands nothing to the generator; every child of a composite is handed to it; in all, `Size(s) - 1` statements are handed on, each strictly smaller than `s`, so rendering terminates |
| `StatementView.RenderEachTraced` | src/main/java/com/speedment/codegen/view/java/StatementView.java:38 | rendering the children in order gives the fragments of `RenderEach` and hands on every child, `SizeAll` statements in all |
| `StatementView.TracedIsBelow` | src/main/java/com/speedment/codegen/view/java/StatementView.java:34-41 | the statements handed to the generator while rendering `s` are, as a multiset, exactly the statements below `s` in the tree (listed independently in post-order): every node below `s` once, and nothing else |
| `StatementView.TracedEachIsBelowAll` | src/main/java/com/speedment/codegen/view/java/StatementView.java:38 | rendering a list of children hands on, as a multiset, exactly the children and everything below them |
| `StatementView.RenderIsLeafConcat` | src/main/java/com/speedment/codegen/view/java/StatementView.java:34-41 | any statement tree renders to the texts of its simple statements concatenated left to right, with nothing inserted |
| `StatementView.RenderEachIsLeafConcat` | src/main/java/com/speedment/codegen/view/java/StatementView.java:38-39 | the present fragments of the children concatenate to the children's simple texts in order |
| `StatementView.CompositeAppend` | src/main/java/com/speedment/codegen/view/java/StatementView.java:38-39 | a composite of `a + b` renders to the rendering of `a` directly followed by that of `b`: no separator between children |
| `StatementView.TwoSimpleStatements` | src/main/java/com/speedment/codegen/view/java/StatementView.java:38-39 | a composite of `a();` and `b();` renders to `a();b();` |
| `CodeGen.Present` | src/main/java/com/speedment/codegen/view/java/StatementView.java:38 | keeps exactly the present fragments' values, never more than there are fragments; when every fragment is present, all their values in order |
| `CodeGen.PresentAppend` | src/main/java/com/speedment/codegen/view/java/StatementView.java:38 | filtering a concatenation is concatenating the filtered parts, so the present values keep the fragments' order |
| `CodeGen.Join` | src/main/java/com/speedment/codegen/view/java/StatementView.java:39 | joining no parts gives the empty string; joining one part gives that part |
| `CodeGen.JoinEmptyIsConcat` | src/main/java/com/speedment/codegen/view/java/StatementView.java:39 | joining with the empty separator is plain concatenation |
| `ParameterView.Render` | src/main/java/com/speedment/codegen/view/java/ParameterView.java:16-22 | fails with NoSuchElement exactly when the type renders to nothing; otherwise the type text, then a space, then the name, with length the sum of the three |
| `ParameterView.TypeTextRoundTrip` | src/main/java/com/speedment/codegen/view/java/ParameterView.java:17-21 | the rendered type can be read back from the output given the name |
| `ParameterView.RenderInjective` | src/main/java/com/speedment/codegen/view/java/ParameterView.java:17-21 | two parameters with the same name render alike exactly when their types render alike |
| `OptionalUtil.From` | src/main/java/com/speedment/core/stream/OptionalUtil.java:29-31 | at most one element; exactly one iff the optional is present, and then it is the contained value |
| `OptionalUtil.UnwrapOptional` | src/main/java/com/speedment/core/stream/OptionalUtil.java:41-43 | the contained value when present, null when absent |
| `OptionalUtil.Unwrap` | src/main/java/com/speedment/core/stream/OptionalUtil.java:33-39 | a non-Optional argument is returned unchanged; an Optional is unwrapped as by `unwrap(Optional)` |
| `OptionalUtil.FromAgreesWithUnwrap` | src/main/java/com/speedment/core/stream/OptionalUtil.java:29-43 | the stream is empty exactly when unwrap gives null, and otherwise holds exactly the unwrapped value |
| `OptionalUtil.UnwrapRemovesOneLevel` | src/main/java/com/speedment/core/stream/OptionalUtil.java:33-43 | unwrap removes exactly one Optional layer (an Optional of an Optional yields the inner Optional) and leaves other values alone |
| `PredicateView.RenderedSql` | src/main/java/com/speedment/internal/core/manager/sql/AbstractSpeedmentPredicateView.java:32-37 | the uninverted SQL unchanged when not negated; when negated, a text seven characters longer from which the uninverted SQL is read back intact |
| `PredicateView.Negate` | src/main/java/com/speedment/internal/core/manager/sql/AbstractSpeedmentPredicateView.java:36 | the negated text is seven characters longer, starts with `(NOT (`, ends with `)`, and holds the original intact at offset 6 |
| `PredicateView.StripNegation` | src/main/java/com/speedment/internal/core/manager/sql/AbstractSpeedmentPredicateView.java:36 | any text it accepts is the negation of the text it returns |
| `PredicateView.StripNegate` | src/main/java/com/speedment/internal/core/manager/sql/AbstractSpeedmentPredicateView.java:36 | the original SQL is recovered from its negation |
| `PredicateView.NegateLeavesOneOpen` | src/main/java/com/speedment/internal/core/manager/sql/AbstractSpeedmentPredicateView.java:36 | negation adds one more `(` than `)`, so a balanced input comes out unbalanced |
| `PredicateView.NegateExample` | src/main/java/com/speedment/internal/core/manager/sql/AbstractSpeedmentPredicateView.java:36 | the balanced `a = 1` becomes the unbalanced `(NOT (a = 1)` |
| `PredicateView.NegateIntended` | src/main/java/com/speedment/internal/core/manager/sql/AbstractSpeedmentPredicateView.java:36 | the corrected wrapper keeps the original intact at offset 6 and adds eight characters |
| `PredicateView.NegateIntendedKeepsBalance` | src/main/java/com/speedment/internal/core/manager/sql/AbstractSpeedmentPredicateView.java:36 | the corrected wrapper keeps a balanced input balanced |
| `PredicateView.AbstractPredicateView.RenderUninverted` | src/main/java/com/speedment/internal/core/manager/sql/AbstractSpeedmentPredicateView.java:29 | a fresh fragment with the concrete view's SQL and values; one more call counted |
| `PredicateView.AbstractPredicateView.Render` | src/main/java/com/speedment/internal/core/manager/sql/AbstractSpeedmentPredicateView.java:31-38 | renderUninverted is called exactly once; the SQL is unchanged when not negated and wrapped once in the negation when negated; the values are kept |
| `PredicateView.AbstractPredicateView.Transform` | src/main/java/com/speedment/internal/core/manager/sql/AbstractSpeedmentPredicateView.java:40-43 | a null predicate throws NullPointer without rendering; otherwise the same as render |
| `PredicateView.SqlPredicateFragment.constructor` | src/main/java/com/speedment/internal/core/manager/sql/AbstractSpeedmentPredicateView.java:45-55 | a fragment holding exactly the given SQL and values |
| `PredicateView.SqlPredicateFragment.GetSql` | src/main/java/com/speedment/internal/core/manager/sql/AbstractSpeedmentPredicateView.java:36 | the fragment's current SQL text |
| `PredicateView.SqlPredicateFragment.SetSql` | src/main/java/com/speedment/internal/core/manager/sql/AbstractSpeedmentPredicateView.java:36 | replaces the SQL in place, keeps the values and returns the same fragment |
| `PredicateView.OfSql` | src/main/java/com/speedment/internal/core/manager/sql/AbstractSpeedmentPredicateView.java:45-47 | a new fragment with the SQL and no values |
| `PredicateView.OfSqlObjects` | src/main/java/com/speedment/internal/core/manager/sql/AbstractSpeedmentPredicateView.java:49-51 | a new fragment with the SQL and the given values |
| `PredicateView.OfSqlObject` | src/main/java/com/speedment/internal/core/manager/sql/AbstractSpeedmentPredicateView.java:53-55 | a new fragment with the SQL and the one value |
| `EntityTranslatorSupport.Kind` | src/main/java/com/speedment/internal/core/code/entity/EntityTranslatorSupport.java:125-147 | String is recognised before Comparable: a String mapping is never treated as Comparable |
| `EntityTranslatorSupport.EnabledKeys` | src/main/java/com/speedment/internal/core/code/entity/EntityTranslatorSupport.java:238 | keeps exactly the enabled foreign keys; a single key is kept exactly when it is enabled |
| `EntityTranslatorSupport.EnabledKeysAppend` | src/main/java/com/speedment/internal/core/code/entity/EntityTranslatorSupport.java:238 | filtering a concatenation concatenates the filtered parts, so the enabled keys keep the table's order |
| `EntityTranslatorSupport.ColumnsOf` | src/main/java/com/speedment/internal/core/code/entity/EntityTranslatorSupport.java:239 | holds exactly the columns of the given foreign keys; a single key contributes its columns in order |
| `EntityTranslatorSupport.ColumnsOfAppend` | src/main/java/com/speedment/internal/core/code/entity/EntityTranslatorSupport.java:239 | flattening a concatenation concatenates the flattened parts, so columns come key by key, in order |
| `EntityTranslatorSupport.Matching` | src/main/java/com/speedment/internal/core/code/entity/EntityTranslatorSupport.java:240 | keeps only foreign key columns that refer to the column |
| `EntityTranslatorSupport.MatchingAppend` | src/main/java/com/speedment/internal/core/code/entity/EntityTranslatorSupport.java:240 | filtering a concatenation concatenates the filtered parts |
| `EntityTranslatorSupport.FirstMatchInKeys` | src/main/java/com/speedment/internal/core/code/entity/EntityTranslatorSupport.java:237-241 | the stream over the keys is empty exactly when no column of an enabled key refers to the column; otherwise its first element is the column at the lexicographically least (key index, column index) that does |
| `EntityTranslatorSupport.GetForeignKey` | src/main/java/com/speedment/internal/core/code/entity/EntityTranslatorSupport.java:234-242 | a found column refers to the given column and belongs to an enabled foreign key of the table |
| `EntityTranslatorSupport.MatchingIsFirstMatch` | src/main/java/com/speedment/internal/core/code/entity/EntityTranslatorSupport.java:240-241 | the first filtered element is the earliest matching one; nothing is filtered in exactly when nothing matches |
| `EntityTranslatorSupport.GetForeignKeyIsFirstMatch` | src/main/java/com/speedment/internal/core/code/entity/EntityTranslatorSupport.java:234-242 | empty exactly when no column of an enabled foreign key of the table refers to the column; otherwise the column at the least key index, and within that key the least column index, that does |
| `EntityTranslatorSupport.ForeignKeyFieldType` | src/main/java/com/speedment/internal/core/code/entity/EntityTranslatorSupport.java:125-159 | foreign key columns get [entity, db type, fk type] for String and [entity, db type, mapping, fk type] otherwise, the fk type last; interface and implementation share the generics and differ in class |
| `EntityTranslatorSupport.PlainFieldType` | src/main/java/com/speedment/internal/core/code/entity/EntityTranslatorSupport.java:167-196 | other columns get [entity, db type] for String and [entity, db type, mapping] otherwise; interface and implementation share the generics and differ in class |
| `EntityTranslatorSupport.GetReferenceFieldType` | src/main/java/com/speedment/internal/core/code/entity/EntityTranslatorSupport.java:98-200 | a foreign key column adds exactly one import, of the foreign entity type; a missing foreign table throws SpeedmentException and leaves the file alone; other columns leave the file alone; the types are those of the decision table |
| `EntityTranslatorSupport.File.Add` | src/main/java/com/speedment/internal/core/code/entity/EntityTranslatorSupport.java:123 | appends the import to the file |
| `EntityTranslatorSupport.DbMethod` | src/main/java/com/speedment/internal/core/code/entity/EntityTranslatorSupport.java:244-248 | the given name and return type, exactly one thrown type (SpeedmentException), no parameters |
| `EntityTranslatorSupport.DbMethodWithListener` | src/main/java/com/speedment/internal/core/code/entity/EntityTranslatorSupport.java:250-257 | additionally exactly one parameter, named `consumer`, of type Consumer with one generic |
| `EntityTranslatorSupport.ListenerParam` | src/main/java/com/speedment/internal/core/code/entity/EntityTranslatorSupport.java:254-256 | the parameter named `consumer` of type Consumer<MetaResult<entity>> |
| `EntityTranslatorSupport.Persist` | src/main/java/com/speedment/internal/core/code/entity/EntityTranslatorSupport.java:259-261 | `persist` returning the entity, throwing SpeedmentException, no parameters |
| `EntityTranslatorSupport.Update` | src/main/java/com/speedment/internal/core/code/entity/EntityTranslatorSupport.java:263-265 | `update` returning the entity, throwing SpeedmentException, no parameters |
| `EntityTranslatorSupport.Remove` | src/main/java/com/speedment/internal/core/code/entity/EntityTranslatorSupport.java:267-269 | `remove` returning the entity, throwing SpeedmentException, no parameters |
| `EntityTranslatorSupport.PersistWithListener` | src/main/java/com/speedment/internal/core/code/entity/EntityTranslatorSupport.java:271-273 | `persist` returning the entity, throwing SpeedmentException, with the one listener parameter |
| `EntityTranslatorSupport.UpdateWithListener` | src/main/java/com/speedment/internal/core/code/entity/EntityTranslatorSupport.java:275-277 | `update` returning the entity, throwing SpeedmentException, with the one listener parameter |
| `EntityTranslatorSupport.RemoveWithListener` | src/main/java/com/speedment/internal/core/code/entity/EntityTranslatorSupport.java:279-281 | `remove` returning the entity, throwing SpeedmentException, with the one listener parameter |
| `EntityTranslatorSupport.WithListenerExtendsDbMethod` | src/main/java/com/speedment/internal/core/code/entity/EntityTranslatorSupport.java:244-257 | the listener form is the plain form plus the Consumer<MetaResult<entity>> parameter |
| `EntityTranslatorSupport.PersistUpdateRemoveDifferOnlyInName` | src/main/java/com/speedment/internal/core/code/entity/EntityTranslatorSupport.java:259-281 | persist, update and remove, and their listener forms, differ only in the method name |
| `EntityTranslatorSupport.ToJson` | src/main/java/com/speedment/internal/core/code/entity/EntityTranslatorSupport.java:207-215 | `String toJson()`, nothing thrown, documented with a return tag |
| `EntityTranslatorSupport.ToJsonExtended` | src/main/java/com/speedment/internal/core/code/entity/EntityTranslatorSupport.java:217-232 | `String toJson(JsonEncoder<entity> jsonEncoder)`, documented with param, return and see tags |
| `EntityTranslatorSupport.ToJsonOverloads` | src/main/java/com/speedment/internal/core/code/entity/EntityTranslatorSupport.java:207-232 | the two toJson methods are overloads, and each @param tag names an existing parameter |
| `Lifecycle.ParseState` | src/main/java/com/speedment/internal/core/runtime/AbstractLifecycle.java:191-193 | a state name read back names that state |
| `Lifecycle.StateNameRoundTrip` | src/main/java/com/speedment/internal/core/runtime/AbstractLifecycle.java:191-193 | every state's text reads back to that state |
| `Lifecycle.WithSlot` | src/main/java/com/speedment/internal/core/runtime/AbstractLifecycle.java:81-133 | a setter puts the hook in its own slot, and leaves the state, the log and the other five slots unchanged |
| `Lifecycle.RunSlot` | src/main/java/com/speedment/internal/core/runtime/AbstractLifecycle.java:136-163 | running a slot runs exactly the hook it holds and changes nothing else |
| `Lifecycle.InitialSlots` | src/main/java/com/speedment/internal/core/runtime/AbstractLifecycle.java:60-63 | a new instance is CREATED and every slot holds NOTHING |
| `Lifecycle.SetTwiceKeepsLast` | src/main/java/com/speedment/internal/core/runtime/AbstractLifecycle.java:81-133 | setting a slot twice keeps only the last hook |
| `Lifecycle.SettersCommute` | src/main/java/com/speedment/internal/core/runtime/AbstractLifecycle.java:81-133 | setters of different slots do not interfere |
| `Lifecycle.RunRunsLastSet` | src/main/java/com/speedment/internal/core/runtime/AbstractLifecycle.java:81-163 | after setting a slot, running it runs exactly the hook just set |
| `Lifecycle.AbstractLifecycle.constructor` | src/main/java/com/speedment/internal/core/runtime/AbstractLifecycle.java:60-63 | state CREATED, all six slots NOTHING, nothing run |
| `Lifecycle.AbstractLifecycle.SetState` | src/main/java/com/speedment/internal/core/runtime/AbstractLifecycle.java:66-68 | null throws and changes nothing; otherwise the state becomes the value and nothing else changes |
| `Lifecycle.AbstractLifecycle.SetPreInitialize` | src/main/java/com/speedment/internal/core/runtime/AbstractLifecycle.java:81-83 | null throws and changes nothing; otherwise only the pre-initialize slot changes |
| `Lifecycle.AbstractLifecycle.SetPreLoad` | src/main/java/com/speedment/internal/core/runtime/AbstractLifecycle.java:91-93 | null throws and changes nothing; otherwise only the pre-load slot changes |
| `Lifecycle.AbstractLifecycle.SetPreResolve` | src/main/java/com/speedment/internal/core/runtime/AbstractLifecycle.java:101-103 | null throws and changes nothing; otherwise only the pre-resolve slot changes |
| `Lifecycle.AbstractLifecycle.SetPreStart` | src/main/java/com/speedment/internal/core/runtime/AbstractLifecycle.java:111-113 | null throws and changes nothing; otherwise only the pre-start slot changes |
| `Lifecycle.AbstractLifecycle.SetPreStop` | src/main/java/com/speedment/internal/core/runtime/AbstractLifecycle.java:121-123 | null throws and changes nothing; otherwise only the pre-stop slot changes |
| `Lifecycle.AbstractLifecycle.SetPostStop` | src/main/java/com/speedment/internal/core/runtime/AbstractLifecycle.java:131-133 | null throws and changes nothing; otherwise only the post-stop slot changes |
| `Lifecycle.AbstractLifecycle.RunPreInitialize` | src/main/java/com/speedment/internal/core/runtime/AbstractLifecycle.java:136-138 | runs exactly the pre-initialize hook |
| `Lifecycle.AbstractLifecycle.RunPreLoad` | src/main/java/com/speedment/internal/core/runtime/AbstractLifecycle.java:141-143 | runs exactly the pre-load hook |
| `Lifecycle.AbstractLifecycle.RunPreResolve` | src/main/java/com/speedment/internal/core/runtime/AbstractLifecycle.java:146-148 | runs exactly the pre-resolve hook |
| `Lifecycle.AbstractLifecycle.RunPreStart` | src/main/java/com/speedment/internal/core/runtime/AbstractLifecycle.java:151-153 | runs exactly the pre-start hook |
| `Lifecycle.AbstractLifecycle.RunPreStop` | src/main/java/com/speedment/internal/core/runtime/AbstractLifecycle.java:156-158 | runs exactly the pre-stop hook |
| `Lifecycle.AbstractLifecycle.RunPostStop` | src/main/java/com/speedment/internal/core/runtime/AbstractLifecycle.java:161-163 | runs exactly the post-stop hook |
| `Lifecycle.AbstractLifecycle.ToString` | src/main/java/com/speedment/internal/core/runtime/AbstractLifecycle.java:191-193 | the text of the current state, which reads back to that state |

`Lifecycle.AbstractLifecycle.GetState` (lines 71-73) returns the `state`
field and has no contract of its own. The methods `preInitialize()` …
`postStop()` are named `RunPreInitialize` … `RunPostStop` in the model, so
that they do not clash with the slot names of `Phase`.

## Findings

| source | as written | input that shows it | evidently intended | confidence | as-written member | corrected member |
|---|---|---|---|---|---|---|
| src/main/java/com/speedment/internal/core/manager/sql/AbstractSpeedmentPredicateView.java:36 | a negated predicate's SQL becomes `"(NOT (" + sql + ")"`, which opens two parentheses and closes one | `a = 1` becomes `(NOT (a = 1)` | `"(NOT (" + sql + "))"`, which keeps balanced SQL balanced | high; not executed | `PredicateView.NegateExample` | `PredicateView.NegateIntendedKeepsBalance` |

`AbstractPredicateView.Render` keeps the code's wrapper (`PredicateView.Negate`),
because the model describes what the code does. `PredicateView.NegateIntended`
is the corrected wrapper, with its balance property proved.

## Left out

- Null arguments are modelled only where the code rejects them visibly: `setState`, the six hook setters and `transform`. Elsewhere Dafny's types exclude null. This covers `requireNonNull` in `getReferenceFieldType`, `getForeignKey` and the method builders.
- `OptionalUtil.from(null)` and `unwrap((Optional) null)` throw a NullPointerException by dereferencing the argument (OptionalUtil.java lines 30 and 42). This is not modelled, because Dafny's types exclude a null Optional. `unwrap((Object) null)` returns null (lines 34-37), and the model keeps that as `Null`.
- `CodeGenerator.on`/`onEach` and `CodeCombiner` are not part of this model. `onEach` is modelled as rendering each child in order and keeping the present fragments. `joinIfNotEmpty` is modelled as joining with the separator, giving "" for no parts.
- `SimpleStatement.get` is not part of this model. It is taken to return the present text the statement was built with.
- The type renderer used by `ParameterView` is a function parameter `on`. Its rendering of types is not modelled.
- `renderUninverted` is abstract in the source. It is the function `uninverted` supplied when the view is built, and it is taken to return a new fragment each time. The number of calls is kept in a ghost counter.
- `SqlPredicateFragment` is not part of this model beyond its SQL text, its values, `setSql` and the `of` factories.
- `getEntityType` and `pluralis` are left out, because they rely on the language namer, `Pluralis` and document ancestry, which are not part of this model. `getReferenceFieldType` takes `getEntityType` as the function parameter `entityTypeOf`.
- Javadoc text is left out. Only the tags of the two `toJson` methods are kept.
- A column's type mapper is reduced to its Java class name, whether that class implements `Comparable`, and its database type name. The reflective `Comparable.class.isAssignableFrom` is the `comparable` flag.
- `DocumentDbUtil.isSame` is taken to compare column identities, and to be false for a missing column.
- `File.add(Import)` is taken to append to the file's imports. No duplicate check is modelled.
- The lifecycle transitions `initialize`, `load`, `resolve`, `start` and `stop` are left out. They delegate to `Lifecyclable`'s defaults, which are not part of this model. `self()` is left out too.
- What a hook does when run is left out. Running a hook appends its token to `log`, including the no-op `NOTHING`.
- `Lifecyclable.State` is not part of this model. Its constants are taken to be CREATED, INITIALIZED, LOADED, RESOLVED, STARTED and STOPPED, and `toString` is taken to give the constant's name.
