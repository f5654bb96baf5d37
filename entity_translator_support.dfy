/**
 * EntityTranslatorSupport: helpers of the entity code translator. They pick
 * the field interface and implementation types for a column, find the
 * foreign key a column takes part in, and build the fixed method shapes of an
 * entity (persist, update, remove, toJson).
 */
module EntityTranslatorSupport {
  import opened Wrappers
  import opened CodeModel

  const CONSUMER_NAME: string := "consumer"
  const JSON_ENCODER_PARAM: string := "jsonEncoder"

  // Class names used by Type.of(Class).
  const STRING: string := "java.lang.String"
  const SPEEDMENT_EXCEPTION: string := "com.speedment.exception.SpeedmentException"
  const CONSUMER: string := "java.util.function.Consumer"
  const META_RESULT: string := "com.speedment.db.MetaResult"
  const JSON_ENCODER: string := "com.speedment.encoder.JsonEncoder"
  const STRING_FOREIGN_KEY_FIELD: string := "com.speedment.field.StringForeignKeyField"
  const STRING_FOREIGN_KEY_FIELD_IMPL: string := "com.speedment.internal.core.field.StringForeignKeyFieldImpl"
  const COMPARABLE_FOREIGN_KEY_FIELD: string := "com.speedment.field.ComparableForeignKeyField"
  const COMPARABLE_FOREIGN_KEY_FIELD_IMPL: string := "com.speedment.internal.core.field.ComparableForeignKeyFieldImpl"
  const REFERENCE_FOREIGN_KEY_FIELD: string := "com.speedment.field.ReferenceForeignKeyField"
  const REFERENCE_FOREIGN_KEY_FIELD_IMPL: string := "com.speedment.internal.core.field.ReferenceForeignKeyFieldImpl"
  const STRING_FIELD: string := "com.speedment.field.StringField"
  const STRING_FIELD_IMPL: string := "com.speedment.internal.core.field.StringFieldImpl"
  const COMPARABLE_FIELD: string := "com.speedment.field.ComparableField"
  const COMPARABLE_FIELD_IMPL: string := "com.speedment.internal.core.field.ComparableFieldImpl"
  const REFERENCE_FIELD: string := "com.speedment.field.ReferenceField"
  const REFERENCE_FIELD_IMPL: string := "com.speedment.internal.core.field.ReferenceFieldImpl"

  /** The Java class a column's type mapper maps to, with whether it implements Comparable. */
  datatype JavaClass = JavaClass(name: string, comparable: bool)

  /** The three kinds of mapping the translator tells apart. */
  datatype MappingKind = StringMapping | ComparableMapping | ReferenceMapping

  /** String.class.equals(mapping) is tested before Comparable.class.isAssignableFrom(mapping). */
  function Kind(mapping: JavaClass): (k: MappingKind)
    ensures k == StringMapping <==> mapping.name == STRING
    ensures k == ComparableMapping <==> mapping.name != STRING && mapping.comparable
  {
    if mapping.name == STRING then StringMapping
    else if mapping.comparable then ComparableMapping
    else ReferenceMapping
  }

  /** A column, with the Java type and database type of its type mapper. */
  datatype Column = Column(id: string, mapping: JavaClass, databaseType: string)

  /**
   * A foreign key column: the column it belongs to (findColumn) and the table
   * it refers to (findForeignTable), either of which may not be found.
   */
  datatype ForeignKeyColumn = ForeignKeyColumn(
    column: Optional<string>,
    foreignTableName: string,
    foreignTable: Optional<string>)

  datatype ForeignKey = ForeignKey(enabled: bool, columns: seq<ForeignKeyColumn>)

  datatype Table = Table(name: string, foreignKeys: seq<ForeignKey>)

  /** DocumentDbUtil.isSame(column, found.orElse(null)): a missing column is never the same. */
  predicate IsSame(column: Column, found: Optional<string>) {
    found.Of? && found.value == column.id
  }

  // The stream pipeline of getForeignKey, stage by stage.

  /** .filter(HasEnabled::test) */
  function EnabledKeys(keys: seq<ForeignKey>): (r: seq<ForeignKey>)
    ensures forall k :: k in r <==> k in keys && k.enabled
    ensures |keys| == 1 ==> r == (if keys[0].enabled then keys else [])
  {
    if keys == [] then []
    else (if keys[0].enabled then [keys[0]] else []) + EnabledKeys(keys[1..])
  }

  /** .flatMap(ForeignKey::foreignKeyColumns) */
  function ColumnsOf(keys: seq<ForeignKey>): (r: seq<ForeignKeyColumn>)
    ensures forall c :: c in r <==> exists k :: k in keys && c in k.columns
    ensures |keys| == 1 ==> r == keys[0].columns
  {
    if keys == [] then [] else keys[0].columns + ColumnsOf(keys[1..])
  }

  /** .filter(fkc -> isSame(column, fkc.findColumn().orElse(null))) */
  function Matching(columns: seq<ForeignKeyColumn>, column: Column): (r: seq<ForeignKeyColumn>)
    ensures forall c :: c in r ==> c in columns && IsSame(column, c.column)
  {
    if columns == [] then []
    else (if IsSame(column, columns[0].column) then [columns[0]] else []) + Matching(columns[1..], column)
  }

  /** The filter keeps order: the enabled keys of `a` come before those of `b`. */
  lemma {:induction false} EnabledKeysAppend(a: seq<ForeignKey>, b: seq<ForeignKey>)
    ensures EnabledKeys(a + b) == EnabledKeys(a) + EnabledKeys(b)
  {
    if a == [] {
      assert a + b == b;
    } else {
      assert (a + b)[1..] == a[1..] + b;
      EnabledKeysAppend(a[1..], b);
    }
  }

  /** The flatMap keeps order: the columns of `a`'s keys come before those of `b`'s. */
  lemma {:induction false} ColumnsOfAppend(a: seq<ForeignKey>, b: seq<ForeignKey>)
    ensures ColumnsOf(a + b) == ColumnsOf(a) + ColumnsOf(b)
  {
    if a == [] {
      assert a + b == b;
    } else {
      assert (a + b)[1..] == a[1..] + b;
      ColumnsOfAppend(a[1..], b);
    }
  }

  lemma {:induction false} MatchingAppend(a: seq<ForeignKeyColumn>, b: seq<ForeignKeyColumn>, column: Column)
    ensures Matching(a + b, column) == Matching(a, column) + Matching(b, column)
  {
    if a == [] {
      assert a + b == b;
    } else {
      assert (a + b)[1..] == a[1..] + b;
      MatchingAppend(a[1..], b, column);
    }
  }

  /** The foreign key columns of the table's enabled foreign keys, in order. */
  function EnabledColumns(table: Table): seq<ForeignKeyColumn> {
    ColumnsOf(EnabledKeys(table.foreignKeys))
  }

  /** getForeignKey: .findFirst() of the pipeline. */
  function GetForeignKey(table: Table, column: Column): (r: Optional<ForeignKeyColumn>)
    ensures r.Of? ==> IsSame(column, r.value.column)
    ensures r.Of? ==> exists k :: k in table.foreignKeys && k.enabled && r.value in k.columns
  {
    var matching := Matching(EnabledColumns(table), column);
    if matching == [] then Empty else Of(matching[0])
  }

  lemma {:induction false} MatchingIsFirstMatch(columns: seq<ForeignKeyColumn>, column: Column)
    ensures Matching(columns, column) == [] <==> forall i :: 0 <= i < |columns| ==> !IsSame(column, columns[i].column)
    ensures Matching(columns, column) != [] ==>
              exists i :: 0 <= i < |columns| && columns[i] == Matching(columns, column)[0] &&
                forall j :: 0 <= j < i ==> !IsSame(column, columns[j].column)
  {
    if columns != [] {
      MatchingIsFirstMatch(columns[1..], column);
      if !IsSame(column, columns[0].column) && Matching(columns, column) != [] {
        var i :| 0 < i + 1 <= |columns[1..]| && columns[1..][i] == Matching(columns[1..], column)[0] &&
                 forall j :: 0 <= j < i ==> !IsSame(column, columns[1..][j].column);
        assert columns[i + 1] == Matching(columns, column)[0];
      }
    }
  }

  /** Column `ci` of foreign key `ki` is enabled and refers to the column. */
  predicate MatchesAt(keys: seq<ForeignKey>, column: Column, ki: int, ci: int) {
    0 <= ki < |keys| && keys[ki].enabled && 0 <= ci < |keys[ki].columns| &&
    IsSame(column, keys[ki].columns[ci].column)
  }

  /** What the pipeline over `keys` yields before findFirst. */
  function Found(keys: seq<ForeignKey>, column: Column): seq<ForeignKeyColumn> {
    Matching(ColumnsOf(EnabledKeys(keys)), column)
  }

  /** The first key's matches come first, then those of the remaining keys. */
  lemma FoundSplit(keys: seq<ForeignKey>, column: Column)
    requires keys != []
    ensures Found(keys, column) ==
            (if keys[0].enabled then Matching(keys[0].columns, column) else []) + Found(keys[1..], column)
  {
    var k0, rest := keys[0], keys[1..];
    assert keys == [k0] + rest;
    EnabledKeysAppend([k0], rest);
    ColumnsOfAppend(EnabledKeys([k0]), EnabledKeys(rest));
    MatchingAppend(ColumnsOf(EnabledKeys([k0])), ColumnsOf(EnabledKeys(rest)), column);
  }

  /** No column of an enabled key of `keys` refers to the column. */
  ghost predicate NoMatch(keys: seq<ForeignKey>, column: Column) {
    forall ki, ci :: !MatchesAt(keys, column, ki, ci)
  }

  /** (ki, ci) is a matching position holding `found`, and no matching position comes before it. */
  ghost predicate FirstMatchAt(keys: seq<ForeignKey>, column: Column, ki: int, ci: int, found: ForeignKeyColumn) {
    MatchesAt(keys, column, ki, ci) && keys[ki].columns[ci] == found &&
    forall kj, cj :: MatchesAt(keys, column, kj, cj) ==> ki < kj || (ki == kj && ci <= cj)
  }

  /** When the first key has a match, the first match is in it, before every other. */
  lemma FirstMatchInFirstKey(keys: seq<ForeignKey>, column: Column)
    requires keys != [] && keys[0].enabled && Matching(keys[0].columns, column) != []
    ensures Found(keys, column) != [] && !NoMatch(keys, column)
    ensures exists ci :: FirstMatchAt(keys, column, 0, ci, Found(keys, column)[0])
  {
    FoundSplit(keys, column);
    var a := keys[0].columns;
    MatchingIsFirstMatch(a, column);
    var i :| 0 <= i < |a| && a[i] == Matching(a, column)[0] &&
             forall j :: 0 <= j < i ==> !IsSame(column, a[j].column);
    assert MatchesAt(keys, column, 0, i);
    assert FirstMatchAt(keys, column, 0, i, Found(keys, column)[0]);
  }

  /** When the first key has no match, the matches are those of the remaining keys. */
  lemma NoMatchInFirstKey(keys: seq<ForeignKey>, column: Column)
    requires keys != [] && !(keys[0].enabled && Matching(keys[0].columns, column) != [])
    ensures Found(keys, column) == Found(keys[1..], column)
    ensures forall ci :: !MatchesAt(keys, column, 0, ci)
  {
    FoundSplit(keys, column);
    MatchingIsFirstMatch(keys[0].columns, column);
  }

  /** Without a match in the first key, `keys` has a match exactly when `keys[1..]` has one. */
  lemma NoneFoundPastFirstKey(keys: seq<ForeignKey>, column: Column)
    requires keys != [] && !(keys[0].enabled && Matching(keys[0].columns, column) != [])
    ensures NoMatch(keys, column) <==> NoMatch(keys[1..], column)
  {
    NoMatchInFirstKey(keys, column);
    if NoMatch(keys[1..], column) {
      forall ki, ci
        ensures !MatchesAt(keys, column, ki, ci)
      {
        if ki > 0 {
          assert !MatchesAt(keys[1..], column, ki - 1, ci);
        }
      }
    } else {
      var ki, ci :| MatchesAt(keys[1..], column, ki, ci);
      assert MatchesAt(keys, column, ki + 1, ci);
    }
  }

  /** Without a match in the first key, the first match of `keys[1..]` at (ki, ci) is that of `keys` at (ki + 1, ci). */
  lemma FirstFoundPastFirstKey(keys: seq<ForeignKey>, column: Column, ki: int, ci: int, found: ForeignKeyColumn)
    requires keys != [] && !(keys[0].enabled && Matching(keys[0].columns, column) != [])
    requires FirstMatchAt(keys[1..], column, ki, ci, found)
    ensures FirstMatchAt(keys, column, ki + 1, ci, found)
  {
    NoMatchInFirstKey(keys, column);
    assert MatchesAt(keys, column, ki + 1, ci);
    forall kj, cj | MatchesAt(keys, column, kj, cj)
      ensures ki + 1 < kj || (ki + 1 == kj && ci <= cj)
    {
      assert MatchesAt(keys[1..], column, kj - 1, cj);
    }
  }

  /**
   * The pipeline finds the first match in the order (foreign key, then column
   * within the key), skipping disabled keys: nothing is found exactly when no
   * column of an enabled key matches, and otherwise what is found is at some
   * matching (ki, ci) with no matching position before it.
   */
  lemma {:induction false} FirstMatchInKeys(keys: seq<ForeignKey>, column: Column)
    ensures Found(keys, column) == [] <==> NoMatch(keys, column)
    ensures Found(keys, column) != [] ==> exists ki, ci :: FirstMatchAt(keys, column, ki, ci, Found(keys, column)[0])
  {
    if keys != [] {
      if keys[0].enabled && Matching(keys[0].columns, column) != [] {
        FirstMatchInFirstKey(keys, column);
      } else {
        var rest := keys[1..];
        FirstMatchInKeys(rest, column);
        NoMatchInFirstKey(keys, column);
        NoneFoundPastFirstKey(keys, column);
        if Found(rest, column) != [] {
          var ki, ci :| FirstMatchAt(rest, column, ki, ci, Found(rest, column)[0]);
          FirstFoundPastFirstKey(keys, column, ki, ci, Found(rest, column)[0]);
        }
      }
    }
  }

  /**
   * getForeignKey finds the first foreign key column, across the enabled
   * foreign keys in order and the columns of each key in order, that refers
   * to the column; Empty when none does.
   */
  lemma GetForeignKeyIsFirstMatch(table: Table, column: Column)
    ensures var keys := table.foreignKeys;
            GetForeignKey(table, column).Empty? <==> forall ki, ci :: !MatchesAt(keys, column, ki, ci)
    ensures var keys := table.foreignKeys;
            var r := GetForeignKey(table, column);
            r.Of? ==>
              exists ki, ci :: MatchesAt(keys, column, ki, ci) && keys[ki].columns[ci] == r.value &&
                forall kj, cj :: MatchesAt(keys, column, kj, cj) ==> ki < kj || (ki == kj && ci <= cj)
  {
    FirstMatchInKeys(table.foreignKeys, column);
    if GetForeignKey(table, column).Of? {
      var ki, ci :| FirstMatchAt(table.foreignKeys, column, ki, ci, Found(table.foreignKeys, column)[0]);
      assert MatchesAt(table.foreignKeys, column, ki, ci);
    }
  }

  /** ReferenceFieldType: the field interface type and its implementation type. */
  datatype ReferenceFieldType = ReferenceFieldType(typ: Type, implType: Type)

  /** The bound types of a type's generic arguments, each argument having one bound. */
  function GenericBounds(t: Type): seq<Type>
    requires forall i :: 0 <= i < |t.generics| ==> |t.generics[i].bounds| == 1
  {
    seq(|t.generics|, i requires 0 <= i < |t.generics| => t.generics[i].bounds[0])
  }

  /**
   * The decision table for a foreign key column whose foreign entity type is
   * `fkType`: the generic arguments are the entity, the database type, the
   * mapped type unless it is String, and last the foreign entity type;
   * interface and implementation carry the same arguments and differ only in
   * their class.
   */
  function ForeignKeyFieldType(kind: MappingKind, entityType: Type, databaseType: Type, mappingType: Type, fkType: Type): (r: ReferenceFieldType)
    ensures SingleBounds(r.typ) && SingleBounds(r.implType)
    ensures r.typ.generics == r.implType.generics
    ensures (r.typ.name, r.implType.name) == FieldClasses(kind, true)
    ensures GenericBounds(r.typ) == (if kind == StringMapping then [entityType, databaseType, fkType]
                                     else [entityType, databaseType, mappingType, fkType])
    ensures GenericBounds(r.typ)[|GenericBounds(r.typ)| - 1] == fkType
  {
    match kind
    case StringMapping =>
      ReferenceFieldType(
        AddGeneric(AddGeneric(AddGeneric(TypeOf(STRING_FOREIGN_KEY_FIELD), entityType), databaseType), fkType),
        AddGeneric(AddGeneric(AddGeneric(TypeOf(STRING_FOREIGN_KEY_FIELD_IMPL), entityType), databaseType), fkType))
    case ComparableMapping =>
      ReferenceFieldType(
        AddGeneric(AddGeneric(AddGeneric(AddGeneric(TypeOf(COMPARABLE_FOREIGN_KEY_FIELD), entityType), databaseType), mappingType), fkType),
        AddGeneric(AddGeneric(AddGeneric(AddGeneric(TypeOf(COMPARABLE_FOREIGN_KEY_FIELD_IMPL), entityType), databaseType), mappingType), fkType))
    case ReferenceMapping =>
      ReferenceFieldType(
        AddGeneric(AddGeneric(AddGeneric(AddGeneric(TypeOf(REFERENCE_FOREIGN_KEY_FIELD), entityType), databaseType), mappingType), fkType),
        AddGeneric(AddGeneric(AddGeneric(AddGeneric(TypeOf(REFERENCE_FOREIGN_KEY_FIELD_IMPL), entityType), databaseType), mappingType), fkType))
  }

  /**
   * The decision table for a column that is not part of a foreign key: the
   * entity, the database type, and the mapped type unless it is String; the
   * same arguments on both types, which differ only in their class.
   */
  function PlainFieldType(kind: MappingKind, entityType: Type, databaseType: Type, mappingType: Type): (r: ReferenceFieldType)
    ensures SingleBounds(r.typ) && SingleBounds(r.implType)
    ensures r.typ.generics == r.implType.generics
    ensures (r.typ.name, r.implType.name) == FieldClasses(kind, false)
    ensures GenericBounds(r.typ) == (if kind == StringMapping then [entityType, databaseType]
                                     else [entityType, databaseType, mappingType])
  {
    match kind
    case StringMapping =>
      ReferenceFieldType(
        AddGeneric(AddGeneric(TypeOf(STRING_FIELD), entityType), databaseType),
        AddGeneric(AddGeneric(TypeOf(STRING_FIELD_IMPL), entityType), databaseType))
    case ComparableMapping =>
      ReferenceFieldType(
        AddGeneric(AddGeneric(AddGeneric(TypeOf(COMPARABLE_FIELD), entityType), databaseType), mappingType),
        AddGeneric(AddGeneric(AddGeneric(TypeOf(COMPARABLE_FIELD_IMPL), entityType), databaseType), mappingType))
    case ReferenceMapping =>
      ReferenceFieldType(
        AddGeneric(AddGeneric(AddGeneric(TypeOf(REFERENCE_FIELD), entityType), databaseType), mappingType),
        AddGeneric(AddGeneric(AddGeneric(TypeOf(REFERENCE_FIELD_IMPL), entityType), databaseType), mappingType))
  }

  /** The interface and implementation class a kind of column maps to. */
  function FieldClasses(kind: MappingKind, foreignKey: bool): (string, string) {
    match (kind, foreignKey)
    case (StringMapping, true) => (STRING_FOREIGN_KEY_FIELD, STRING_FOREIGN_KEY_FIELD_IMPL)
    case (ComparableMapping, true) => (COMPARABLE_FOREIGN_KEY_FIELD, COMPARABLE_FOREIGN_KEY_FIELD_IMPL)
    case (ReferenceMapping, true) => (REFERENCE_FOREIGN_KEY_FIELD, REFERENCE_FOREIGN_KEY_FIELD_IMPL)
    case (StringMapping, false) => (STRING_FIELD, STRING_FIELD_IMPL)
    case (ComparableMapping, false) => (COMPARABLE_FIELD, COMPARABLE_FIELD_IMPL)
    case (ReferenceMapping, false) => (REFERENCE_FIELD, REFERENCE_FIELD_IMPL)
  }

  /** Every generic argument has exactly one bound. */
  predicate SingleBounds(t: Type) {
    forall i :: 0 <= i < |t.generics| ==> |t.generics[i].bounds| == 1
  }

  /** A generated source file; only its imports are modelled. */
  class File {
    var imports: seq<Import>

    constructor ()
      ensures imports == []
    {
      imports := [];
    }

    /** File.add(Import): appends the import. */
    method Add(i: Import)
      modifies this
      ensures imports == old(imports) + [i]
    {
      imports := imports + [i];
    }
  }

  /**
   * getReferenceFieldType. `entityTypeOf` stands for getEntityType with the
   * language namer, applied to the referenced table. For a foreign key column
   * the foreign entity type is imported into `file` (once); when the foreign
   * table cannot be found a SpeedmentException is thrown before the file is
   * touched. Other columns leave the file as it was.
   */
  method GetReferenceFieldType(file: File, table: Table, column: Column, entityType: Type, entityTypeOf: string -> Type)
    returns (r: Result<ReferenceFieldType>)
    modifies file
    ensures var kind := Kind(column.mapping);
            var databaseType := TypeOf(column.databaseType);
            var mappingType := TypeOf(column.mapping.name);
            var fk := GetForeignKey(table, column);
            match fk
            case Empty =>
              r == Success(PlainFieldType(kind, entityType, databaseType, mappingType)) &&
              file.imports == old(file.imports)
            case Of(fkc) =>
              match fkc.foreignTable
              case Empty =>
                r == Failure(SpeedmentException("Could not find referenced foreign table '" + fkc.foreignTableName + "'.")) &&
                file.imports == old(file.imports)
              case Of(foreignTable) =>
                r == Success(ForeignKeyFieldType(kind, entityType, databaseType, mappingType, entityTypeOf(foreignTable))) &&
                file.imports == old(file.imports) + [Import(entityTypeOf(foreignTable))]
  {
    var kind := Kind(column.mapping);
    var databaseType := TypeOf(column.databaseType);
    var mappingType := TypeOf(column.mapping.name);
    var fk := GetForeignKey(table, column);
    if fk.Empty? {
      return Success(PlainFieldType(kind, entityType, databaseType, mappingType));
    }
    var fkc := fk.value;
    if fkc.foreignTable.Empty? {
      return Failure(SpeedmentException("Could not find referenced foreign table '" + fkc.foreignTableName + "'."));
    }
    var fkType := entityTypeOf(fkc.foreignTable.value);
    file.Add(Import(fkType));
    r := Success(ForeignKeyFieldType(kind, entityType, databaseType, mappingType, fkType));
  }

  /** dbMethod: the method `name` returning the entity and throwing SpeedmentException. */
  function DbMethod(name: string, entityType: Type): (m: Method)
    ensures m.name == name && m.returnType == entityType
    ensures m.exceptions == [TypeOf(SPEEDMENT_EXCEPTION)]
    ensures m.params == [] && m.javadoc == Empty
  {
    MethodOf(name, entityType).(exceptions := [TypeOf(SPEEDMENT_EXCEPTION)])
  }

  /** The listener parameter: Consumer<MetaResult<entity>> consumer. */
  function ListenerParam(entityType: Type): (p: Field)
    ensures p.name == CONSUMER_NAME
    ensures p.typ == Type(CONSUMER, [Generic([Type(META_RESULT, [Generic([entityType])])])])
  {
    var metaResult := AddGeneric(TypeOf(META_RESULT), entityType);
    assert [] + [Generic([entityType])] == [Generic([entityType])];
    assert metaResult == Type(META_RESULT, [Generic([entityType])]);
    assert [] + [Generic([metaResult])] == [Generic([metaResult])];
    Field(CONSUMER_NAME, AddGeneric(TypeOf(CONSUMER), metaResult))
  }

  /** dbMethodWithListener: dbMethod plus the single listener parameter. */
  function DbMethodWithListener(name: string, entityType: Type): (m: Method)
    ensures m.name == name && m.returnType == entityType
    ensures m.exceptions == [TypeOf(SPEEDMENT_EXCEPTION)]
    ensures |m.params| == 1 && m.params[0].name == CONSUMER_NAME
    ensures m.params[0].typ.name == CONSUMER && |m.params[0].typ.generics| == 1
  {
    MethodOf(name, entityType).(exceptions := [TypeOf(SPEEDMENT_EXCEPTION)], params := [ListenerParam(entityType)])
  }

  /** The listener form is the plain form with the listener parameter added. */
  lemma WithListenerExtendsDbMethod(name: string, entityType: Type)
    ensures DbMethodWithListener(name, entityType) == DbMethod(name, entityType).(params := [ListenerParam(entityType)])
  {
  }

  function Persist(entityType: Type): (m: Method)
    ensures m.name == "persist" && m.returnType == entityType
    ensures m.exceptions == [TypeOf(SPEEDMENT_EXCEPTION)] && m.params == []
  {
    DbMethod("persist", entityType)
  }

  function Update(entityType: Type): (m: Method)
    ensures m.name == "update" && m.returnType == entityType
    ensures m.exceptions == [TypeOf(SPEEDMENT_EXCEPTION)] && m.params == []
  {
    DbMethod("update", entityType)
  }

  function Remove(entityType: Type): (m: Method)
    ensures m.name == "remove" && m.returnType == entityType
    ensures m.exceptions == [TypeOf(SPEEDMENT_EXCEPTION)] && m.params == []
  {
    DbMethod("remove", entityType)
  }

  function PersistWithListener(entityType: Type): (m: Method)
    ensures m.name == "persist" && m.returnType == entityType
    ensures m.exceptions == [TypeOf(SPEEDMENT_EXCEPTION)] && m.params == [ListenerParam(entityType)]
  {
    DbMethodWithListener("persist", entityType)
  }

  function UpdateWithListener(entityType: Type): (m: Method)
    ensures m.name == "update" && m.returnType == entityType
    ensures m.exceptions == [TypeOf(SPEEDMENT_EXCEPTION)] && m.params == [ListenerParam(entityType)]
  {
    DbMethodWithListener("update", entityType)
  }

  function RemoveWithListener(entityType: Type): (m: Method)
    ensures m.name == "remove" && m.returnType == entityType
    ensures m.exceptions == [TypeOf(SPEEDMENT_EXCEPTION)] && m.params == [ListenerParam(entityType)]
  {
    DbMethodWithListener("remove", entityType)
  }

  /** persist, update and remove (and their listener forms) differ only in the method name. */
  lemma PersistUpdateRemoveDifferOnlyInName(entityType: Type)
    ensures Persist(entityType).name == "persist" && Update(entityType).name == "update" && Remove(entityType).name == "remove"
    ensures Update(entityType) == Persist(entityType).(name := "update")
    ensures Remove(entityType) == Persist(entityType).(name := "remove")
    ensures PersistWithListener(entityType).name == "persist"
    ensures UpdateWithListener(entityType) == PersistWithListener(entityType).(name := "update")
    ensures RemoveWithListener(entityType) == PersistWithListener(entityType).(name := "remove")
  {
  }

  /** toJson(): String toJson(), documented with a return tag. */
  function ToJson(): (m: Method)
    ensures m.name == "toJson" && m.returnType == TypeOf(STRING)
    ensures m.exceptions == [] && m.params == []
    ensures m.javadoc == Of([ReturnTag])
  {
    MethodOf("toJson", TypeOf(STRING)).(javadoc := Of([ReturnTag]))
  }

  /** toJsonExtended: String toJson(JsonEncoder<entity> jsonEncoder), documented with param, return and see tags. */
  function ToJsonExtended(entityType: Type): (m: Method)
    ensures m.name == "toJson" && m.returnType == TypeOf(STRING) && m.exceptions == []
    ensures m.params == [Field(JSON_ENCODER_PARAM, AddGeneric(TypeOf(JSON_ENCODER), entityType))]
    ensures m.javadoc == Of([ParamTag(JSON_ENCODER_PARAM), ReturnTag, SeeTag])
  {
    MethodOf("toJson", TypeOf(STRING))
      .(params := [Field(JSON_ENCODER_PARAM, AddGeneric(TypeOf(JSON_ENCODER), entityType))])
      .(javadoc := Of([ParamTag(JSON_ENCODER_PARAM), ReturnTag, SeeTag]))
  }

  /** Every @param tag of a method's Javadoc names one of its parameters. */
  predicate ParamTagsMatch(m: Method) {
    m.javadoc.Of? ==>
      forall t :: t in m.javadoc.value && t.ParamTag? ==> exists p :: p in m.params && p.name == t.value
  }

  /**
   * The two toJson methods are overloads (same name and return type, different
   * parameter lists), and their Javadoc documents only existing parameters.
   */
  lemma ToJsonOverloads(entityType: Type)
    ensures ToJson().name == ToJsonExtended(entityType).name
    ensures ToJson().returnType == ToJsonExtended(entityType).returnType
    ensures ToJson().params != ToJsonExtended(entityType).params
    ensures ParamTagsMatch(ToJson()) && ParamTagsMatch(ToJsonExtended(entityType))
  {
    assert ToJsonExtended(entityType).params[0].name == JSON_ENCODER_PARAM;
  }
}
