// The host's SQLite schema helpers: a table is derived from a class's public
// writable properties. A class is given here as a list of property
// descriptors in place of reflection; running SQL is an input that answers
// with the affected row count, or None when the statement throws.
module Schema {
  import opened Wrappers
  import opened Text

  /** A property's type, with any Nullable<> wrapper already removed. */
  datatype ClrType =
    | StringType | TimeSpanType | DateTimeOffsetType | DateTimeType
    | ByteType | IntType | UIntType | LongType | ULongType | ShortType | UShortType
    | FloatType | DoubleType | DecimalType | BoolType | ByteArrayType
    | OtherType(typeName: string)

  datatype Attribute =
    | KeyAttribute | ExplicitKeyAttribute | ComputedAttribute | CollateNoCaseAttribute | UniqueAttribute
    | DefaultCurrentTimestamp | DefaultCurrentTime | DefaultCurrentDate
    | OtherAttribute(attributeName: string)

  /**
   * One public instance property: its attributes in declaration order and
   * the text of its value on a fresh instance (None when that value is null).
   */
  datatype Property = Property(name: string, propertyType: ClrType, canWrite: bool,
                               attributes: seq<Attribute>, defaultValue: Option<string>)

  /** A class: its name, the name in its [Table] attribute if any, and its properties. */
  datatype ClassType = ClassType(name: string, tableAttribute: Option<string>, properties: seq<Property>)

  /** One entry of GetClassTableInfo, as PRAGMA table_info reports a column. */
  datatype ColumnInfo = ColumnInfo(cid: nat, name: string, sqlType: string, notNull: bool,
                                   unique: bool, defaultValue: Option<string>, pk: nat)

  const KeyOnText := "[Key] Attribute used for TEXT field. [ExplicitKey] should be used."
  const KeyColumnAdded := "SQLite does not allow adding columns to an existing table as primary keys"
  const SqlFailure := "SQLiteException"

  // ---- naming and types ----

  /** TableName: the [Table] attribute's name, else the class name with an "s". */
  function TableName(c: ClassType): (t: string)
    ensures c.tableAttribute.Some? ==> t == c.tableAttribute.value
    ensures c.tableAttribute.None? ==> t == c.name + "s"
  {
    match c.tableAttribute
    case Some(n) => n
    case None => c.name + "s"
  }

  /** MapTypeToSQLiteType: the column type of a property type, "" when it has none. */
  function MapType(t: ClrType): (s: string)
    ensures s in {"", "TEXT", "INTEGER", "REAL", "NUMERIC", "BLOB"}
    ensures s == "" <==> t.OtherType?
  {
    match t
    case StringType => "TEXT"
    case TimeSpanType => "TEXT"
    case DateTimeOffsetType => "TEXT"
    case DateTimeType => "TEXT"
    case ByteType => "INTEGER"
    case IntType => "INTEGER"
    case UIntType => "INTEGER"
    case LongType => "INTEGER"
    case ULongType => "INTEGER"
    case ShortType => "INTEGER"
    case UShortType => "INTEGER"
    case FloatType => "REAL"
    case DoubleType => "REAL"
    case DecimalType => "NUMERIC"
    case BoolType => "NUMERIC"
    case ByteArrayType => "BLOB"
    case OtherType(_) => ""
  }

  // ---- properties and their attributes ----

  /** A property becomes a column when it is writable, not [Computed], and its type maps. */
  predicate Included(p: Property)
  {
    p.canWrite && ComputedAttribute !in p.attributes && MapType(p.propertyType) != ""
  }

  predicate IsKey(attrs: seq<Attribute>)
  {
    KeyAttribute in attrs || ExplicitKeyAttribute in attrs
  }

  /** [Key] on a TEXT column, which is refused. */
  predicate TextKey(p: Property)
  {
    KeyAttribute in p.attributes && MapType(p.propertyType) == "TEXT"
  }

  /** The default after the attributes: the last DefaultCurrent* attribute wins over the instance value. */
  function DefaultAfter(d: Option<string>, attrs: seq<Attribute>): Option<string>
  {
    if attrs == [] then d
    else
      match attrs[|attrs| - 1]
      case DefaultCurrentTimestamp => Some("CURRENT_TIMESTAMP")
      case DefaultCurrentTime => Some("CURRENT_TIME")
      case DefaultCurrentDate => Some("CURRENT_DATE")
      case _ => DefaultAfter(d, attrs[..|attrs| - 1])
  }

  /** What the attribute loop learns about one property. */
  datatype AttributeFlags = AttributeFlags(primaryKey: bool, unique: bool, collateNoCase: bool, defaultValue: Option<string>)

  /**
   * The loop over a property's attributes: [Key] on TEXT throws; [Key] and
   * [ExplicitKey] make a key, and so does `listed` (the property already
   * being in the key list) as soon as there is any attribute at all.
   */
  method ScanAttributes(attrs: seq<Attribute>, sqlType: string, d: Option<string>, listed: bool) returns (r: Result<AttributeFlags, string>)
    ensures r.Err? <==> KeyAttribute in attrs && sqlType == "TEXT"
    ensures r.Err? ==> r.error == KeyOnText
    ensures r.Ok? ==> r.value == AttributeFlags(IsKey(attrs) || (listed && attrs != []), UniqueAttribute in attrs,
                                              CollateNoCaseAttribute in attrs, DefaultAfter(d, attrs))
  {
    var primaryKey, unique, collateNoCase, defaultValue := false, false, false, d;
    for i := 0 to |attrs|
      invariant !(KeyAttribute in attrs[..i] && sqlType == "TEXT")
      invariant primaryKey == (IsKey(attrs[..i]) || (listed && i > 0))
      invariant unique == (UniqueAttribute in attrs[..i])
      invariant collateNoCase == (CollateNoCaseAttribute in attrs[..i])
      invariant defaultValue == DefaultAfter(d, attrs[..i])
    {
      var a := attrs[i];
      assert attrs[..i + 1] == attrs[..i] + [a];
      assert attrs[..i + 1][..i] == attrs[..i];
      if a == KeyAttribute {
        if sqlType == "TEXT" {
          return Err(KeyOnText);
        }
        primaryKey := true;
      }
      if a == CollateNoCaseAttribute {
        collateNoCase := true;
      }
      if a == ExplicitKeyAttribute || listed {
        primaryKey := true;
      }
      if a == UniqueAttribute {
        unique := true;
      }
      if a == DefaultCurrentTimestamp {
        defaultValue := Some("CURRENT_TIMESTAMP");
      }
      if a == DefaultCurrentTime {
        defaultValue := Some("CURRENT_TIME");
      }
      if a == DefaultCurrentDate {
        defaultValue := Some("CURRENT_DATE");
      }
    }
    assert attrs[..|attrs|] == attrs;
    r := Ok(AttributeFlags(primaryKey, unique, collateNoCase, defaultValue));
  }

  // ---- the columns of a class ----

  /** The properties that become columns, in order. */
  function Mapped(ps: seq<Property>): (ms: seq<Property>)
    ensures |ms| <= |ps|
    ensures forall j :: 0 <= j < |ms| ==> Included(ms[j])
  {
    if ps == [] then []
    else
      var init := Mapped(ps[..|ps| - 1]);
      if Included(ps[|ps| - 1]) then init + [ps[|ps| - 1]] else init
  }

  /** A property is kept exactly when it is listed and included. */
  lemma {:induction false} MappedMember(ps: seq<Property>, p: Property)
    ensures p in Mapped(ps) <==> p in ps && Included(p)
    decreases |ps|
  {
    if ps != [] {
      var init, last := ps[..|ps| - 1], ps[|ps| - 1];
      MappedMember(init, p);
      assert ps == init + [last];
    }
  }

  /** Exactly the included properties are kept; when all are included, all are kept. */
  lemma MappedKeepsIncluded(ps: seq<Property>)
    ensures forall p :: p in Mapped(ps) <==> p in ps && Included(p)
    ensures (forall j :: 0 <= j < |ps| ==> Included(ps[j])) ==> Mapped(ps) == ps
  {
    forall p ensures p in Mapped(ps) <==> p in ps && Included(p) {
      MappedMember(ps, p);
    }
    if forall j :: 0 <= j < |ps| ==> Included(ps[j]) {
      MappedAllIncluded(ps);
    }
  }

  lemma {:induction false} MappedAllIncluded(ps: seq<Property>)
    requires forall j :: 0 <= j < |ps| ==> Included(ps[j])
    ensures Mapped(ps) == ps
    decreases |ps|
  {
    if ps != [] {
      var init := ps[..|ps| - 1];
      assert forall j :: 0 <= j < |init| ==> init[j] == ps[j];
      MappedAllIncluded(init);
      assert Mapped(ps) == Mapped(init) + [ps[|ps| - 1]];
      assert ps == init + [ps[|ps| - 1]];
    }
  }

  /** The properties kept from a prefix are a prefix of those kept from the whole list. */
  lemma {:induction false} MappedPrefix(ps: seq<Property>, k: nat)
    requires k <= |ps|
    ensures Mapped(ps[..k]) <= Mapped(ps)
    decreases |ps|
  {
    if k < |ps| {
      var init := ps[..|ps| - 1];
      MappedPrefix(init, k);
      assert init[..k] == ps[..k];
    } else {
      assert ps[..k] == ps;
    }
  }

  /** x occurs in ms before y does. */
  predicate KeptInOrder(ms: seq<Property>, x: Property, y: Property)
  {
    exists a, b :: 0 <= a < b < |ms| && ms[a] == x && ms[b] == y
  }

  /** An included property is kept right after what its prefix keeps. */
  lemma KeptAt(ps: seq<Property>, i: nat)
    requires i < |ps| && Included(ps[i])
    ensures |Mapped(ps[..i])| < |Mapped(ps)| && Mapped(ps)[|Mapped(ps[..i])|] == ps[i]
  {
    MappedStep(ps, i);
    MappedPrefix(ps, i + 1);
  }

  /** A longer prefix past an included property keeps more. */
  lemma KeptBefore(ps: seq<Property>, i: nat, j: nat)
    requires i < j <= |ps| && Included(ps[i])
    ensures |Mapped(ps[..i])| < |Mapped(ps[..j])|
  {
    MappedStep(ps, i);
    MappedPrefix(ps[..j], i + 1);
    assert ps[..j][..i + 1] == ps[..i + 1];
  }

  /** Two included properties are kept at ascending positions. */
  lemma MappedOrderAt(ps: seq<Property>, i: nat, j: nat)
    requires i < j < |ps| && Included(ps[i]) && Included(ps[j])
    ensures KeptInOrder(Mapped(ps), ps[i], ps[j])
  {
    KeptAt(ps, i);
    KeptAt(ps, j);
    KeptBefore(ps, i, j);
    var a, b := |Mapped(ps[..i])|, |Mapped(ps[..j])|;
    assert Mapped(ps)[a] == ps[i] && Mapped(ps)[b] == ps[j];
  }

  /** The kept list keeps the order of the included properties. */
  lemma MappedKeepsOrder(ps: seq<Property>)
    ensures forall i, j :: 0 <= i < j < |ps| && Included(ps[i]) && Included(ps[j]) ==>
      KeptInOrder(Mapped(ps), ps[i], ps[j])
  {
    forall i, j | 0 <= i < j < |ps| && Included(ps[i]) && Included(ps[j])
      ensures KeptInOrder(Mapped(ps), ps[i], ps[j])
    {
      MappedOrderAt(ps, i, j);
    }
  }

  function Names(ms: seq<Property>): (ns: seq<string>)
    ensures |ns| == |ms| && forall j :: 0 <= j < |ms| ==> ns[j] == ms[j].name
  {
    seq(|ms|, j requires 0 <= j < |ms| => ms[j].name)
  }

  predicate Distinct(ks: seq<string>)
  {
    forall a, b :: 0 <= a < b < |ks| ==> ks[a] != ks[b]
  }

  /** The names of the [Key]/[ExplicitKey] columns, each once, in column order (the key HashSet). */
  function KeyNames(ms: seq<Property>): (ks: seq<string>)
    ensures Distinct(ks)
    ensures forall k :: k in ks ==> k in Names(ms)
    ensures forall j :: 0 <= j < |ms| && IsKey(ms[j].attributes) ==> ms[j].name in ks
  {
    if ms == [] then []
    else
      var init := ms[..|ms| - 1];
      var ks := KeyNames(init);
      var p := ms[|ms| - 1];
      assert forall j :: 0 <= j < |init| ==> init[j] == ms[j];
      assert forall k :: k in Names(init) ==> k in Names(ms) by {
        forall k | k in Names(init) ensures k in Names(ms) {
          var j :| 0 <= j < |init| && Names(init)[j] == k;
          assert Names(ms)[j] == k;
        }
      }
      assert p.name == Names(ms)[|ms| - 1];
      if IsKey(p.attributes) && p.name !in ks then ks + [p.name] else ks
  }

  /** The last column whose name equals `target` ignoring case (the loop keeps overwriting it). */
  function LastMatching(ms: seq<Property>, target: string): (r: Option<string>)
    ensures r.Some? ==> r.value in Names(ms) && EqualsIgnoreCase(r.value, target)
  {
    if ms == [] then None
    else if EqualsIgnoreCase(ms[|ms| - 1].name, target) then
      assert ms[|ms| - 1].name == Names(ms)[|ms| - 1];
      Some(ms[|ms| - 1].name)
    else
      var r := LastMatching(ms[..|ms| - 1], target);
      assert r.Some? ==> r.value in Names(ms) by {
        if r.Some? {
          var j :| 0 <= j < |ms| - 1 && Names(ms[..|ms| - 1])[j] == r.value;
          assert Names(ms)[j] == r.value;
        }
      }
      r
  }

  /** LastMatching finds nothing exactly when no column matches, and otherwise the last column that does. */
  lemma {:induction false} LastMatchingIsLast(ms: seq<Property>, target: string)
    ensures LastMatching(ms, target).None? <==> !Matches(ms, target)
    ensures LastMatching(ms, target).Some? ==>
      exists j :: LastMatchAt(ms, target, j) && ms[j].name == LastMatching(ms, target).value
    decreases |ms|
  {
    if ms == [] {
    } else if EqualsIgnoreCase(ms[|ms| - 1].name, target) {
      assert LastMatchAt(ms, target, |ms| - 1);
    } else {
      var init := ms[..|ms| - 1];
      LastMatchingIsLast(init, target);
      assert forall j :: 0 <= j < |init| ==> init[j] == ms[j];
      if Matches(ms, target) {
        var j :| 0 <= j < |ms| && EqualsIgnoreCase(ms[j].name, target);
        assert EqualsIgnoreCase(init[j].name, target);
      }
      if LastMatching(init, target).Some? {
        var j :| LastMatchAt(init, target, j) && init[j].name == LastMatching(init, target).value;
        assert LastMatchAt(ms, target, j);
      }
    }
  }

  /** Column j matches `target` ignoring case, and no later column does. */
  predicate LastMatchAt(ms: seq<Property>, target: string, j: int)
  {
    0 <= j < |ms| && EqualsIgnoreCase(ms[j].name, target)
    && forall i :: j < i < |ms| ==> !EqualsIgnoreCase(ms[i].name, target)
  }

  /** Some column's name equals `target` ignoring case. */
  predicate Matches(ms: seq<Property>, target: string)
  {
    exists j :: 0 <= j < |ms| && EqualsIgnoreCase(ms[j].name, target)
  }

  /** With no explicit key: "Id", then "{Table}Id", then "{Class}Id", all ignoring case. */
  function FallbackKeys(ms: seq<Property>, tableName: string, className: string): (ks: seq<string>)
    ensures |ks| <= 1
    ensures forall k :: k in ks ==> k in Names(ms)
  {
    match LastMatching(ms, "id")
    case Some(n) => [n]
    case None =>
      match LastMatching(ms, tableName + "id")
      case Some(n) => [n]
      case None =>
        match LastMatching(ms, className + "id")
        case Some(n) => [n]
        case None => []
  }

  /**
   * The fallback's priority: a column named Id wins, then {Table}Id, then
   * {Class}Id, each compared ignoring case; no key when none of them exists.
   */
  lemma FallbackPriority(ms: seq<Property>, tableName: string, className: string)
    ensures var ks := FallbackKeys(ms, tableName, className);
      && (Matches(ms, "id") ==> |ks| == 1 && EqualsIgnoreCase(ks[0], "id"))
      && (!Matches(ms, "id") && Matches(ms, tableName + "id") ==>
          |ks| == 1 && EqualsIgnoreCase(ks[0], tableName + "id"))
      && (!Matches(ms, "id") && !Matches(ms, tableName + "id") && Matches(ms, className + "id") ==>
          |ks| == 1 && EqualsIgnoreCase(ks[0], className + "id"))
      && (ks == [] <==> !Matches(ms, "id") && !Matches(ms, tableName + "id") && !Matches(ms, className + "id"))
  {
    LastMatchingIsLast(ms, "id");
    LastMatchingIsLast(ms, tableName + "id");
    LastMatchingIsLast(ms, className + "id");
  }

  /** Every name in the key list is the name of a [Key] or [ExplicitKey] column. */
  lemma {:induction false} KeyNamesAreKeys(ms: seq<Property>)
    ensures forall k :: k in KeyNames(ms) ==> exists j :: 0 <= j < |ms| && ms[j].name == k && IsKey(ms[j].attributes)
    decreases |ms|
  {
    if ms != [] {
      var init := ms[..|ms| - 1];
      KeyNamesAreKeys(init);
      assert forall j :: 0 <= j < |init| ==> init[j] == ms[j];
    }
  }

  /** The primary key of GetClassTableInfo: the explicit keys, or else the fallback. */
  function PrimaryKeys(ms: seq<Property>, tableName: string, className: string): (ks: seq<string>)
    ensures Distinct(ks)
    ensures forall k :: k in ks ==> k in Names(ms)
    ensures KeyNames(ms) != [] ==> ks == KeyNames(ms)
    ensures KeyNames(ms) == [] ==> ks == FallbackKeys(ms, tableName, className)
  {
    if KeyNames(ms) != [] then KeyNames(ms) else FallbackKeys(ms, tableName, className)
  }

  /** The pk number a key list gives a name: its position, from 1, or 0 when it is not a key. */
  function KeyNumber(ks: seq<string>, n: string): nat
  {
    if ks == [] then 0
    else if KeyNumber(ks[..|ks| - 1], n) != 0 then KeyNumber(ks[..|ks| - 1], n)
    else if ks[|ks| - 1] == n then |ks|
    else 0
  }

  /** Keys are numbered 1..n in key order, and only keys get a number. */
  lemma {:induction false} KeyNumbering(ks: seq<string>, n: string)
    requires Distinct(ks)
    ensures n !in ks ==> KeyNumber(ks, n) == 0
    ensures n in ks ==> 1 <= KeyNumber(ks, n) <= |ks| && ks[KeyNumber(ks, n) - 1] == n
  {
    if ks != [] {
      var init := ks[..|ks| - 1];
      KeyNumbering(init, n);
      if n in init {
        var j :| 0 <= j < |init| && init[j] == n;
        assert ks[j] == n;
      }
      assert ks == init + [ks[|ks| - 1]];
    }
  }

  /** The number of the i-th key is i + 1. */
  lemma KeyNumberAt(ks: seq<string>, i: nat)
    requires Distinct(ks) && i < |ks|
    ensures KeyNumber(ks, ks[i]) == i + 1
  {
    KeyNumbering(ks, ks[i]);
  }

  /** Whether column j is the first with its name (`.First()` numbers only that one). */
  predicate FirstWithName(ms: seq<Property>, j: nat)
    requires j < |ms|
  {
    forall k :: 0 <= k < j ==> ms[k].name != ms[j].name
  }

  /** The column of property p at position j, before key numbering. */
  function BaseColumn(p: Property, j: nat): ColumnInfo
  {
    ColumnInfo(j, p.name, MapType(p.propertyType), p.defaultValue.Some?, UniqueAttribute in p.attributes,
               DefaultAfter(p.defaultValue, p.attributes), 0)
  }

  /** The columns of the included properties, in order, before key numbering. */
  function BaseColumns(ms: seq<Property>): (cols: seq<ColumnInfo>)
    ensures |cols| == |ms| && forall j :: 0 <= j < |ms| ==> cols[j] == BaseColumn(ms[j], j)
  {
    if ms == [] then []
    else
      var init := ms[..|ms| - 1];
      assert forall j :: 0 <= j < |init| ==> init[j] == ms[j];
      BaseColumns(init) + [BaseColumn(ms[|ms| - 1], |ms| - 1)]
  }

  function ColumnNames(cols: seq<ColumnInfo>): (ns: seq<string>)
    ensures |ns| == |cols| && forall j :: 0 <= j < |cols| ==> ns[j] == cols[j].name
  {
    seq(|cols|, j requires 0 <= j < |cols| => cols[j].name)
  }

  /** The index of the first occurrence of a name. */
  function FirstIndex(ns: seq<string>, n: string): (i: nat)
    requires n in ns
    ensures i < |ns| && ns[i] == n && forall k :: 0 <= k < i ==> ns[k] != n
  {
    if ns[0] == n then 0 else 1 + FirstIndex(ns[1..], n)
  }

  /** The column GetClassTableInfo gives the j-th included property, key numbers included. */
  function NumberedColumn(ms: seq<Property>, ks: seq<string>, j: nat): ColumnInfo
    requires j < |ms|
  {
    BaseColumn(ms[j], j).(pk := if FirstWithName(ms, j) then KeyNumber(ks, ms[j].name) else 0)
  }

  /** One more property in the loop: the included ones grow by it exactly when it is included. */
  lemma MappedStep(ps: seq<Property>, i: nat)
    requires i < |ps|
    ensures Mapped(ps[..i + 1]) == if Included(ps[i]) then Mapped(ps[..i]) + [ps[i]] else Mapped(ps[..i])
  {
    assert ps[..i + 1][..i] == ps[..i];
  }

  /** One more included property: how the key names and the Id candidates change. */
  lemma AppendStep(ms: seq<Property>, p: Property, target: string)
    ensures LastMatching(ms + [p], target) == if EqualsIgnoreCase(p.name, target) then Some(p.name) else LastMatching(ms, target)
    ensures KeyNames(ms + [p]) == if IsKey(p.attributes) && p.name !in KeyNames(ms) then KeyNames(ms) + [p.name] else KeyNames(ms)
    ensures BaseColumns(ms + [p]) == BaseColumns(ms) + [BaseColumn(p, |ms|)]
  {
    assert (ms + [p])[..|ms|] == ms;
  }

  /** One more included property in the CREATE loop: its entry and the key list. */
  lemma CreateStep(listed: seq<string>, ms: seq<Property>, p: Property)
    ensures Fields(listed, ms + [p]) == Fields(listed, ms) + [Entry(p, CreateKeys(listed, ms))]
    ensures CreateKeys(listed, ms + [p]) ==
      if PrimaryFlag(p, CreateKeys(listed, ms)) && p.name !in CreateKeys(listed, ms) then CreateKeys(listed, ms) + [p.name]
      else CreateKeys(listed, ms)
  {
    assert (ms + [p])[..|ms|] == ms;
  }

  /** One more property: a [Key]-on-TEXT property is among the first i + 1 exactly when it is among the first i or is the next. */
  lemma AnyTextKeyStep(ps: seq<Property>, i: nat)
    requires i < |ps|
    ensures AnyTextKey(ps[..i + 1]) <==> AnyTextKey(ps[..i]) || (Included(ps[i]) && TextKey(ps[i]))
  {
    if AnyTextKey(ps[..i + 1]) {
      var j :| 0 <= j < i + 1 && Included(ps[..i + 1][j]) && TextKey(ps[..i + 1][j]);
      if j < i {
        assert ps[..i][j] == ps[j];
      }
    }
    if AnyTextKey(ps[..i]) {
      var j :| 0 <= j < i && Included(ps[..i][j]) && TextKey(ps[..i][j]);
      assert ps[..i + 1][j] == ps[j];
    }
    if Included(ps[i]) && TextKey(ps[i]) {
      assert ps[..i + 1][i] == ps[i];
    }
  }

  /** The primary key of a class's table description. */
  function ClassKeys(c: ClassType): seq<string>
  {
    PrimaryKeys(Mapped(c.properties), TableName(c), c.name)
  }

  /** The table description of a class, as GetClassTableInfo reports it. */
  function ClassColumns(c: ClassType): (cols: seq<ColumnInfo>)
    ensures |cols| == |Mapped(c.properties)|
  {
    var ms := Mapped(c.properties);
    seq(|ms|, j requires 0 <= j < |ms| => NumberedColumn(ms, ClassKeys(c), j))
  }

  /** Whether some included property carries [Key] on a TEXT column. */
  predicate AnyTextKey(ps: seq<Property>)
  {
    exists j :: 0 <= j < |ps| && Included(ps[j]) && TextKey(ps[j])
  }

  /**
   * The property loop of GetClassTableInfo, with its fallback to the Id
   * columns: the base columns of the included properties and the key names,
   * or the [Key]-on-TEXT error.
   */
  method ScanProperties(ps: seq<Property>, tableName: string, className: string)
    returns (err: Option<string>, cols: seq<ColumnInfo>, keys: seq<string>)
    ensures err.Some? <==> AnyTextKey(ps)
    ensures err.Some? ==> err.value == KeyOnText
    ensures err.None? ==>
      var ms := Mapped(ps);
      |cols| == |ms| && (forall j :: 0 <= j < |ms| ==> cols[j] == BaseColumn(ms[j], j)) &&
      keys == PrimaryKeys(ms, tableName, className)
  {
    cols, keys := [], [];
    var idProp, tableNameIdProp, classNameIdProp: Option<string> := None, None, None;
    ghost var ms: seq<Property> := [];
    for i := 0 to |ps|
      invariant ms == Mapped(ps[..i])
      invariant cols == BaseColumns(ms)
      invariant keys == KeyNames(ms)
      invariant idProp == LastMatching(ms, "id")
      invariant tableNameIdProp == LastMatching(ms, tableName + "id")
      invariant classNameIdProp == LastMatching(ms, className + "id")
      invariant !AnyTextKey(ps[..i])
    {
      var p := ps[i];
      MappedStep(ps, i);
      AnyTextKeyStep(ps, i);
      var sqlType := MapType(p.propertyType);
      if p.canWrite && ComputedAttribute !in p.attributes && sqlType != "" {
        var flags := ScanAttributes(p.attributes, sqlType, p.defaultValue, false);
        if flags.Err? {
          assert Included(ps[i]) && TextKey(ps[i]);
          return Some(flags.error), [], [];
        }
        var ms' := ms + [p];
        AppendStep(ms, p, "id");
        AppendStep(ms, p, tableName + "id");
        AppendStep(ms, p, className + "id");
        if flags.value.primaryKey && p.name !in keys {
          keys := keys + [p.name];
        }
        cols := cols + [ColumnInfo(|cols|, p.name, sqlType, p.defaultValue.Some?, flags.value.unique, flags.value.defaultValue, 0)];
        if EqualsIgnoreCase(p.name, "id") {
          idProp := Some(p.name);
        }
        if EqualsIgnoreCase(p.name, tableName + "id") {
          tableNameIdProp := Some(p.name);
        }
        if EqualsIgnoreCase(p.name, className + "id") {
          classNameIdProp := Some(p.name);
        }
        ms := ms';
      }
    }
    assert ps[..|ps|] == ps;
    if keys == [] && idProp.Some? {
      keys := [idProp.value];
    }
    if keys == [] && tableNameIdProp.Some? {
      keys := [tableNameIdProp.value];
    }
    if keys == [] && classNameIdProp.Some? {
      keys := [classNameIdProp.value];
    }
    err := None;
  }

  /** Adding one more key to the list numbers only that key, with the new length. */
  lemma KeyNumberStep(ks: seq<string>, i: nat, n: string)
    requires Distinct(ks) && i < |ks|
    ensures KeyNumber(ks[..i + 1], n) == if n == ks[i] then i + 1 else KeyNumber(ks[..i], n)
  {
    assert ks[..i + 1][..i] == ks[..i];
    assert Distinct(ks[..i]);
    KeyNumbering(ks[..i], n);
    if n in ks[..i] {
      var k :| 0 <= k < i && ks[..i][k] == n;
      assert ks[k] == n;
    }
  }

  /**
   * The numbering loop: the i-th key gives pk i + 1 to the first column of
   * that name.
   */
  method NumberKeys(ghost ms: seq<Property>, cols: seq<ColumnInfo>, keys: seq<string>) returns (numbered: seq<ColumnInfo>)
    requires |cols| == |ms| && forall j :: 0 <= j < |ms| ==> cols[j] == BaseColumn(ms[j], j)
    requires Distinct(keys) && forall k :: k in keys ==> k in Names(ms)
    ensures |numbered| == |ms| && forall j :: 0 <= j < |ms| ==> numbered[j] == NumberedColumn(ms, keys, j)
  {
    numbered := cols;
    for i := 0 to |keys|
      invariant |numbered| == |ms|
      invariant forall j :: 0 <= j < |ms| ==> numbered[j] == NumberedColumn(ms, keys[..i], j)
    {
      var n := keys[i];
      assert n in Names(ms);
      assert ColumnNames(numbered) == Names(ms);
      var idx := FirstIndex(ColumnNames(numbered), n);
      var next := numbered[idx := numbered[idx].(pk := i + 1)];
      forall j | 0 <= j < |ms| ensures next[j] == NumberedColumn(ms, keys[..i + 1], j) {
        KeyNumberStep(keys, i, ms[j].name);
        if j == idx {
          assert FirstWithName(ms, j);
        } else if ms[j].name == n {
          assert ms[idx].name == n;
          assert !FirstWithName(ms, j);
        }
      }
      numbered := next;
    }
    assert keys[..|keys|] == keys;
  }

  /**
   * GetClassTableInfo: one column per included property, in order, numbered
   * from 0; NOT NULL exactly when the fresh instance's value is not null;
   * [Key] on a TEXT column throws. The primary key columns get pk 1..n in
   * key order, every other column 0.
   */
  method GetClassTableInfo(c: ClassType) returns (r: Result<seq<ColumnInfo>, string>)
    ensures r.Err? <==> AnyTextKey(c.properties)
    ensures r.Err? ==> r.error == KeyOnText
    ensures r.Ok? ==> r.value == ClassColumns(c)
  {
    var err, cols, keys := ScanProperties(c.properties, TableName(c), c.name);
    if err.Some? {
      return Err(err.value);
    }
    ghost var ms := Mapped(c.properties);
    var numbered := NumberKeys(ms, cols, keys);
    assert numbered == ClassColumns(c);
    r := Ok(numbered);
  }

  /**
   * The key numbers GetClassTableInfo hands out: a column with pk > 0 is
   * named by the key at position pk - 1, and every key numbers a column of
   * its name with its position plus one.
   */
  lemma KeyColumns(ms: seq<Property>, ks: seq<string>)
    requires Distinct(ks) && forall k :: k in ks ==> k in Names(ms)
    ensures forall j :: 0 <= j < |ms| && NumberedColumn(ms, ks, j).pk > 0 ==>
      NumberedColumn(ms, ks, j).pk <= |ks| && ks[NumberedColumn(ms, ks, j).pk - 1] == ms[j].name
    ensures forall i :: 0 <= i < |ks| ==>
      exists j :: 0 <= j < |ms| && ms[j].name == ks[i] && NumberedColumn(ms, ks, j).pk == i + 1
  {
    forall j | 0 <= j < |ms| && NumberedColumn(ms, ks, j).pk > 0
      ensures NumberedColumn(ms, ks, j).pk <= |ks| && ks[NumberedColumn(ms, ks, j).pk - 1] == ms[j].name
    {
      KeyNumbering(ks, ms[j].name);
    }
    forall i | 0 <= i < |ks| ensures exists j :: 0 <= j < |ms| && ms[j].name == ks[i] && NumberedColumn(ms, ks, j).pk == i + 1 {
      assert ks[i] in Names(ms);
      var j := FirstIndex(Names(ms), ks[i]);
      assert FirstWithName(ms, j);
      KeyNumberAt(ks, i);
    }
  }

  // ---- CREATE TABLE and ALTER TABLE ----

  /** Whether the CREATE loop treats a property as a key, given the key list so far. */
  predicate PrimaryFlag(p: Property, ks: seq<string>)
  {
    IsKey(p.attributes) || (p.attributes != [] && p.name in ks)
  }

  /** The key list after the CREATE loop: the listed keys, then each new key column. */
  function CreateKeys(listed: seq<string>, ms: seq<Property>): (ks: seq<string>)
    ensures |listed| <= |ks| && ks[..|listed|] == listed
  {
    if ms == [] then listed
    else
      var ks := CreateKeys(listed, ms[..|ms| - 1]);
      var p := ms[|ms| - 1];
      if PrimaryFlag(p, ks) && p.name !in ks then ks + [p.name] else ks
  }

  /**
   * The keys the CREATE loop adds after the listed ones are exactly the
   * [Key]/[ExplicitKey] columns, and no name is added twice.
   */
  lemma {:induction false} CreateKeysMembers(listed: seq<string>, ms: seq<Property>)
    ensures forall k :: k in CreateKeys(listed, ms) <==>
      k in listed || exists j :: 0 <= j < |ms| && ms[j].name == k && IsKey(ms[j].attributes)
    ensures Distinct(listed) ==> Distinct(CreateKeys(listed, ms))
    decreases |ms|
  {
    if ms != [] {
      var init := ms[..|ms| - 1];
      CreateKeysMembers(listed, init);
      assert forall j :: 0 <= j < |init| ==> init[j] == ms[j];
    }
  }

  /** One column definition of CREATE TABLE; UNIQUE only on a column not taken as a key. */
  function Entry(p: Property, ks: seq<string>): string
  {
    var name := "`" + p.name + "` " + MapType(p.propertyType);
    var notNull := if p.defaultValue.Some? then name + " NOT NULL" else name;
    var unique := if UniqueAttribute in p.attributes && !PrimaryFlag(p, ks) then notNull + " UNIQUE" else notNull;
    if CollateNoCaseAttribute in p.attributes then unique + " COLLATE NOCASE" else unique
  }

  function Fields(listed: seq<string>, ms: seq<Property>): (fs: seq<string>)
    ensures |fs| == |ms|
  {
    if ms == [] then []
    else Fields(listed, ms[..|ms| - 1]) + [Entry(ms[|ms| - 1], CreateKeys(listed, ms[..|ms| - 1]))]
  }

  /** The j-th definition is the j-th property's entry, under the keys the loop had collected before it. */
  lemma {:induction false} FieldAt(listed: seq<string>, ms: seq<Property>, j: nat)
    requires j < |ms|
    ensures Fields(listed, ms)[j] == Entry(ms[j], CreateKeys(listed, ms[..j]))
    decreases |ms|
  {
    var init := ms[..|ms| - 1];
    if j < |init| {
      var fs := Fields(listed, init);
      assert Fields(listed, ms) == fs + [Entry(ms[|ms| - 1], CreateKeys(listed, init))];
      assert Fields(listed, ms)[j] == fs[j];
      FieldAt(listed, init, j);
      assert init[..j] == ms[..j];
      assert init[j] == ms[j];
    } else {
      assert ms[..j] == init;
    }
  }

  /** Every column definition of CREATE TABLE, position by position. */
  lemma FieldsEntries(listed: seq<string>, ms: seq<Property>)
    ensures forall j :: 0 <= j < |ms| ==> Fields(listed, ms)[j] == Entry(ms[j], CreateKeys(listed, ms[..j]))
  {
    forall j | 0 <= j < |ms| ensures Fields(listed, ms)[j] == Entry(ms[j], CreateKeys(listed, ms[..j])) {
      FieldAt(listed, ms, j);
    }
  }

  /** The PRIMARY KEY of CREATE TABLE: the loop's keys, or else the fallback. */
  function CreateTableKeys(listed: seq<string>, ms: seq<Property>, tableName: string, className: string): seq<string>
  {
    if CreateKeys(listed, ms) != [] then CreateKeys(listed, ms) else FallbackKeys(ms, tableName, className)
  }

  function Quoted(ks: seq<string>): (qs: seq<string>)
    ensures |qs| == |ks| && forall j :: 0 <= j < |ks| ==> qs[j] == "`" + ks[j] + "`"
  {
    seq(|ks|, j requires 0 <= j < |ks| => "`" + ks[j] + "`")
  }

  /** The PRIMARY KEY clause; empty when there are no keys. */
  function KeyClause(ks: seq<string>): (s: string)
    ensures s == "" <==> ks == []
  {
    if ks == [] then "" else ", PRIMARY KEY (" + Join(Quoted(ks), ", ") + ")"
  }

  function CreateSql(tableName: string, fields: seq<string>, ks: seq<string>): string
  {
    "CREATE TABLE IF NOT EXISTS " + tableName + " (" + Join(fields, ", ") + KeyClause(ks) + ")"
  }

  /** The ALTER TABLE statement that adds one column. */
  function AlterSql(tableName: string, col: ColumnInfo): string
  {
    "ALTER TABLE `" + tableName + "` ADD COLUMN `" + col.name + "` " + col.sqlType
    + (if col.notNull then " NOT NULL" else "")
    + (if col.unique then " UNIQUE" else "")
    + (match col.defaultValue
       case None => ""
       case Some(v) => if col.sqlType == "TEXT" then " DEFAULT '" + v + "'" else " DEFAULT " + v)
  }

  /** Enumerable.Except: the distinct elements of xs that are not in ys, in order. */
  function Except(xs: seq<string>, ys: seq<string>): (r: seq<string>)
    ensures Distinct(r)
    ensures forall x :: x in r <==> x in xs && x !in ys
    ensures forall i, j :: 0 <= i < j < |r| ==> FirstIndex(xs, r[i]) < FirstIndex(xs, r[j])
  {
    if xs == [] then []
    else
      var init := xs[..|xs| - 1];
      var r := Except(init, ys);
      var x := xs[|xs| - 1];
      assert forall z :: z in xs <==> z in init || z == x by {
        assert xs == init + [x];
      }
      forall z | z in init ensures FirstIndex(xs, z) == FirstIndex(init, z) {
        FirstIndexOfPrefix(xs, |xs| - 1, z);
      }
      if x in ys || x in r then r
      else
        assert FirstIndex(xs, x) == |xs| - 1;
        r + [x]
  }

  /** The first occurrence of a name found in a prefix is its first occurrence in the whole list. */
  lemma FirstIndexOfPrefix(ns: seq<string>, m: nat, n: string)
    requires m <= |ns| && n in ns[..m]
    ensures FirstIndex(ns, n) == FirstIndex(ns[..m], n)
  {
    var a := FirstIndex(ns[..m], n);
    var b := FirstIndex(ns, n);
    assert forall k :: 0 <= k < a ==> ns[k] == ns[..m][k];
  }

  /** The first column of the given name (`Where(...).First()`). */
  function ColumnNamed(cols: seq<ColumnInfo>, n: string): ColumnInfo
    requires n in ColumnNames(cols)
  {
    cols[FirstIndex(ColumnNames(cols), n)]
  }

  /**
   * The outcome of the ALTER loop over the missing columns: every statement
   * run so far adds a missing non-key column, in order, and SQLite accepted
   * it; the loop either ran them all and answers true, or stopped at the
   * next missing column, which is a key column or the one SQLite refused.
   */
  predicate AlterOutcome(tableName: string, cols: seq<ColumnInfo>, existing: seq<string>, execute: string -> Option<int>,
                         r: Result<bool, string>, executed: seq<string>)
  {
    var missing := Except(ColumnNames(cols), existing);
    |executed| <= |missing| &&
    (forall j :: 0 <= j < |executed| ==>
       var col := ColumnNamed(cols, missing[j]);
       executed[j] == AlterSql(tableName, col) && col.pk == 0 && execute(executed[j]).Some?) &&
    (r.Ok? <==> |executed| == |missing|) &&
    (r.Ok? ==> r.value) &&
    (r.Err? ==>
       var col := ColumnNamed(cols, missing[|executed|]);
       (col.pk > 0 && r.error == KeyColumnAdded) ||
       (col.pk == 0 && execute(AlterSql(tableName, col)).None? && r.error == SqlFailure))
  }

  /** The existing-table branch: add the class's columns the table lacks. */
  method AddMissingColumns(tableName: string, cols: seq<ColumnInfo>, existing: seq<string>, execute: string -> Option<int>)
    returns (r: Result<bool, string>, executed: seq<string>)
    ensures AlterOutcome(tableName, cols, existing, execute, r, executed)
  {
    var missing := Except(ColumnNames(cols), existing);
    executed := [];
    for i := 0 to |missing|
      invariant |executed| == i
      invariant forall j :: 0 <= j < i ==>
        var col := ColumnNamed(cols, missing[j]);
        executed[j] == AlterSql(tableName, col) && col.pk == 0 && execute(executed[j]).Some?
    {
      assert missing[i] in ColumnNames(cols);
      var col := cols[FirstIndex(ColumnNames(cols), missing[i])];
      var sql := AlterSql(tableName, col);
      if col.pk > 0 {
        return Err(KeyColumnAdded), executed;
      }
      if execute(sql).None? {
        return Err(SqlFailure), executed;
      }
      executed := executed + [sql];
    }
    r := Ok(true);
  }

  /**
   * One pass of the CREATE loop over an included property: its column
   * definition under the keys so far, and the key list with the property
   * added when it is taken as a key for the first time.
   */
  method CreateColumn(p: Property, sqlType: string, keys: seq<string>) returns (entry: string, keys': seq<string>)
    requires Included(p) && !TextKey(p) && sqlType == MapType(p.propertyType)
    ensures entry == Entry(p, keys)
    ensures PrimaryFlag(p, keys) && p.name !in keys ==> keys' == keys + [p.name]
    ensures !(PrimaryFlag(p, keys) && p.name !in keys) ==> keys' == keys
  {
    var flags := ScanAttributes(p.attributes, sqlType, p.defaultValue, p.name in keys);
    assert flags.Ok?;
    keys' := keys;
    entry := "`" + p.name + "` " + sqlType;
    var primaryKey := flags.value.primaryKey;
    if primaryKey && p.name !in keys {
      keys' := keys + [p.name];
    }
    if p.defaultValue.Some? {
      entry := entry + " NOT NULL";
    }
    if flags.value.unique && !primaryKey {
      entry := entry + " UNIQUE";
    }
    if flags.value.collateNoCase {
      entry := entry + " COLLATE NOCASE";
    }
  }

  /**
   * The new-table branch: the CREATE TABLE statement for the class, built
   * from its included properties with the given key list to start from.
   */
  method BuildCreateSql(ps: seq<Property>, tableName: string, className: string, listed: seq<string>) returns (sql: string)
    requires !AnyTextKey(ps)
    ensures sql == CreateSql(tableName, Fields(listed, Mapped(ps)), CreateTableKeys(listed, Mapped(ps), tableName, className))
  {
    var keys := listed;
    var fields: seq<string> := [];
    var idProp, tableNameIdProp, classNameIdProp: Option<string> := None, None, None;
    ghost var ms: seq<Property> := [];
    for i := 0 to |ps|
      invariant ms == Mapped(ps[..i])
      invariant fields == Fields(listed, ms)
      invariant keys == CreateKeys(listed, ms)
      invariant idProp == LastMatching(ms, "id")
      invariant tableNameIdProp == LastMatching(ms, tableName + "id")
      invariant classNameIdProp == LastMatching(ms, className + "id")
    {
      var p := ps[i];
      MappedStep(ps, i);
      var sqlType := MapType(p.propertyType);
      if p.canWrite && ComputedAttribute !in p.attributes && sqlType != "" {
        assert !TextKey(p);
        var ms' := ms + [p];
        AppendStep(ms, p, "id");
        AppendStep(ms, p, tableName + "id");
        AppendStep(ms, p, className + "id");
        CreateStep(listed, ms, p);
        var entry;
        entry, keys := CreateColumn(p, sqlType, keys);
        fields := fields + [entry];
        if EqualsIgnoreCase(p.name, "id") {
          idProp := Some(p.name);
        }
        if EqualsIgnoreCase(p.name, tableName + "id") {
          tableNameIdProp := Some(p.name);
        }
        if EqualsIgnoreCase(p.name, className + "id") {
          classNameIdProp := Some(p.name);
        }
        ms := ms';
      }
    }
    assert ps[..|ps|] == ps;
    if keys == [] && idProp.Some? {
      keys := [idProp.value];
    }
    if keys == [] && tableNameIdProp.Some? {
      keys := [tableNameIdProp.value];
    }
    if keys == [] && classNameIdProp.Some? {
      keys := [classNameIdProp.value];
    }
    sql := CreateSql(tableName, fields, keys);
  }

  /**
   * CreateTableIfNotExists. The class's columns are derived first, so [Key]
   * on TEXT throws in every case. An existing table (one PRAGMA table_info
   * reports columns for) only gets the columns it lacks, one ALTER TABLE
   * each, and answers true; a new table gets one CREATE TABLE, and the answer
   * is true only when SQLite reports affected rows. `executed` lists the
   * statements SQLite accepted, in order.
   */
  method CreateTableIfNotExists(c: ClassType, usePrimaryKeys: Option<seq<string>>, existingColumns: seq<string>,
                                execute: string -> Option<int>)
    returns (r: Result<bool, string>, executed: seq<string>)
    ensures AnyTextKey(c.properties) ==> r == Err(KeyOnText) && executed == []
    ensures !AnyTextKey(c.properties) && existingColumns != [] ==>
      AlterOutcome(TableName(c), ClassColumns(c), existingColumns, execute, r, executed)
    ensures !AnyTextKey(c.properties) && existingColumns == [] ==>
      var ms := Mapped(c.properties);
      var listed := if usePrimaryKeys.Some? then usePrimaryKeys.value else [];
      var sql := CreateSql(TableName(c), Fields(listed, ms), CreateTableKeys(listed, ms, TableName(c), c.name));
      r == Ok(execute(sql).Some? && execute(sql).value > 0) &&
      executed == (if execute(sql).Some? then [sql] else [])
  {
    var tableName := TableName(c);
    var listed := if usePrimaryKeys.Some? && |usePrimaryKeys.value| > 0 then usePrimaryKeys.value else [];
    var classInfos := GetClassTableInfo(c);
    if classInfos.Err? {
      return Err(classInfos.error), [];
    }
    if existingColumns != [] {
      r, executed := AddMissingColumns(tableName, classInfos.value, existingColumns, execute);
      return;
    }
    var sql := BuildCreateSql(c.properties, tableName, c.name, listed);
    var rows := execute(sql);
    executed := if rows.Some? then [sql] else [];
    r := Ok(rows.Some? && rows.value > 0);
  }

  // ---- ReplaceInto ----

  /**
   * ReplaceInto: delete the row, insert it again and commit, all in one
   * transaction; any failure rolls back and answers false. The table is a
   * map from key to row, and the three flags say which step throws.
   */
  function ReplaceInto<K, R>(table: map<K, R>, key: K, row: R, deleteThrows: bool, insertThrows: bool, commitThrows: bool): (r: (bool, map<K, R>))
    ensures r.0 <==> !deleteThrows && !insertThrows && !commitThrows
    ensures r.0 ==> r.1 == table[key := row]
    ensures !r.0 ==> r.1 == table
  {
    if deleteThrows || insertThrows || commitThrows then (false, table)
    else
      var deleted := table - {key};
      (true, deleted[key := row])
  }

  /** Replacing the same row twice leaves the table as replacing it once. */
  lemma ReplaceIntoIdempotent<K, R>(table: map<K, R>, key: K, row: R)
    ensures ReplaceInto(ReplaceInto(table, key, row, false, false, false).1, key, row, false, false, false)
         == ReplaceInto(table, key, row, false, false, false)
  {
    assert table[key := row][key := row] == table[key := row];
  }
}
