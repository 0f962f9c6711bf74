/**
 * The options of a table as decoded from one row of the server's schema tables
 * (com.datastax.driver.core.TableOptionsMetadata). Which columns are read, and which
 * defaults stand in for them, depends on the server's major and minor version.
 */
module TableOptions {
  import opened Base

  /** A Java `double`, kept as its IEEE 754 bit pattern: the decoder only passes doubles through. */
  datatype Float64 = Float64(bits: bv64)

  const ZERO: Float64 := Float64(0)
  /** 0.01 */
  const DEFAULT_BF_FP_CHANCE: Float64 := Float64(0x3F84_7AE1_47AE_147B)
  /** 1.0 */
  const DEFAULT_CRC_CHECK_CHANCE: Float64 := Float64(0x3FF0_0000_0000_0000)

  predicate IsNaN(d: Float64)
  {
    d.bits & 0x7FF0_0000_0000_0000 == 0x7FF0_0000_0000_0000 && d.bits & 0x000F_FFFF_FFFF_FFFF != 0
  }

  /** +0.0 or -0.0. */
  predicate IsZero(d: Float64)
  {
    d.bits & 0x7FFF_FFFF_FFFF_FFFF == 0
  }

  /** Java's `==` on two primitive doubles: NaN equals nothing, and the two zeros are equal. */
  predicate PrimitiveEquals(a: Float64, b: Float64)
  {
    !IsNaN(a) && !IsNaN(b) && (a.bits == b.bits || (IsZero(a) && IsZero(b)))
  }

  /** `Double.equals` on boxed doubles: every NaN equals every NaN, otherwise the bit patterns must agree. */
  predicate BoxedEquals(a: Option<Float64>, b: Option<Float64>)
  {
    match (a, b)
    case (None, None) => true
    case (Some(x), Some(y)) => (IsNaN(x) && IsNaN(y)) || x.bits == y.bits
    case _ => false
  }

  /** The content of a `ByteBuffer`. */
  datatype Blob = Blob(bytes: seq<bv8>)

  /** A non-null cell of the schema row, of the CQL type the column has. */
  datatype Cell =
    | TextCell(text: string)
    | IntCell(intValue: int32)
    | BoolCell(boolValue: bool)
    | DoubleCell(double: Float64)
    | TextMapCell(textMap: map<string, string>)
    | BlobMapCell(blobMap: map<string, Blob>)

  /**
   * One row of the schema table: a column missing from the map is not among the row's
   * column definitions; a column mapped to `None` holds `null`.
   */
  type Row = map<string, Option<Cell>>

  /** The exceptions decoding can throw. */
  datatype DecodeError =
    | NoSuchColumn(column: string)    // the row accessor's IllegalArgumentException
    | WrongType(column: string)       // the row accessor's InvalidTypeException
    | NullValue(column: string)       // an ImmutableMap given a null value: NullPointerException
    | DuplicateKey(key: string)       // ImmutableMap.Builder.build with a repeated key: IllegalArgumentException

  /** `SimpleJSONParser.parseStringMap` and `MapExtensionReader.parse`, which this model does not define. */
  datatype Parsers = Parsers(
    parseStringMap: Option<string> -> map<string, string>,
    parseExtension: Blob -> map<string, string>)

  const COMMENT := "comment"
  const READ_REPAIR_CHANCE := "read_repair_chance"
  const DCLOCAL_READ_REPAIR_CHANCE := "dclocal_read_repair_chance"
  const READ_REPAIR := "read_repair"
  const LOCAL_READ_REPAIR_CHANCE := "local_read_repair_chance"
  const REPLICATE_ON_WRITE := "replicate_on_write"
  const GC_GRACE := "gc_grace_seconds"
  const BF_FP_CHANCE := "bloom_filter_fp_chance"
  const CACHING := "caching"
  const COMPACTION := "compaction"
  const COMPACTION_CLASS := "compaction_strategy_class"
  const COMPACTION_OPTIONS := "compaction_strategy_options"
  const POPULATE_CACHE_ON_FLUSH := "populate_io_cache_on_flush"
  const COMPRESSION := "compression"
  const COMPRESSION_PARAMS := "compression_parameters"
  const MEMTABLE_FLUSH_PERIOD_MS := "memtable_flush_period_in_ms"
  const DEFAULT_TTL := "default_time_to_live"
  const SPECULATIVE_RETRY := "speculative_retry"
  const INDEX_INTERVAL := "index_interval"
  const MIN_INDEX_INTERVAL := "min_index_interval"
  const MAX_INDEX_INTERVAL := "max_index_interval"
  const CRC_CHECK_CHANCE := "crc_check_chance"
  const EXTENSIONS := "extensions"
  const CDC := "cdc"
  const SCYLLA_CDC_EXTENSION := "cdc"
  const SCYLLA_ENCRYPTION_OPTIONS_EXTENSION := "scylla_encryption_options"
  const SCYLLA_TAGS_EXTENSION := "scylla_tags"
  const ADDITIONAL_WRITE_POLICY := "additional_write_policy"

  /** The extensions whose raw bytes are decoded into string maps, in the order they are looked up. */
  const MAP_EXTENSIONS: seq<string> := [SCYLLA_CDC_EXTENSION, SCYLLA_ENCRYPTION_OPTIONS_EXTENSION, SCYLLA_TAGS_EXTENSION]

  const DEFAULT_REPLICATE_ON_WRITE := true
  const DEFAULT_POPULATE_CACHE_ON_FLUSH := false
  const DEFAULT_MEMTABLE_FLUSH_PERIOD: int32 := 0
  const DEFAULT_DEFAULT_TTL: int32 := 0
  const DEFAULT_SPECULATIVE_RETRY := "NONE"
  const DEFAULT_INDEX_INTERVAL: int32 := 128
  const DEFAULT_MIN_INDEX_INTERVAL: int32 := 128
  const DEFAULT_MAX_INDEX_INTERVAL: int32 := 2048
  const DEFAULT_CDC := false
  const DEFAULT_READ_REPAIR := "BLOCKING"
  const DEFAULT_ADDITIONAL_WRITE_POLICY := "99p"

  // ---------------------------------------------------------------------------------------
  // Server versions

  /** The server version is `major.minor` or later, in the usual lexicographic order. */
  predicate AtLeast(v: VersionNumber, major: nat, minor: nat)
  {
    v.major > major || (v.major == major && v.minor >= minor)
  }

  /** The version tests the decoder branches on. */
  datatype VersionFlags = VersionFlags(
    is120: bool, is200: bool, is210: bool,
    is300OrHigher: bool, is380OrHigher: bool, is400OrHigher: bool, is210OrHigher: bool)

  function FlagsOf(v: VersionNumber): (f: VersionFlags)
    // each flag is a range of the version order
    ensures f.is120 <==> !AtLeast(v, 2, 0)
    ensures f.is200 <==> AtLeast(v, 2, 0) && !AtLeast(v, 2, 1)
    ensures f.is210 <==> AtLeast(v, 2, 1) && !AtLeast(v, 3, 0)
    ensures f.is210OrHigher <==> AtLeast(v, 2, 1)
    ensures f.is300OrHigher <==> AtLeast(v, 3, 0)
    ensures f.is380OrHigher <==> AtLeast(v, 3, 8)
    ensures f.is400OrHigher <==> AtLeast(v, 4, 0)
    // 1.2, 2.0 and 2.1-or-later split every version between them
    ensures !(f.is120 && f.is200) && !(f.is120 && f.is210) && !(f.is200 && f.is210)
    ensures f.is120 || f.is200 || f.is210OrHigher
    ensures f.is210OrHigher <==> f.is210 || v.major > 2
    ensures v.major > 3 ==> f.is380OrHigher
  {
    var is400OrHigher := v.major > 3;
    var is300OrHigher := v.major > 2;
    var is210 := v.major == 2 && v.minor >= 1;
    VersionFlags(
      is120 := v.major < 2,
      is200 := v.major == 2 && v.minor == 0,
      is210 := is210,
      is300OrHigher := is300OrHigher,
      is380OrHigher := is400OrHigher || (v.major == 3 && v.minor >= 8),
      is400OrHigher := is400OrHigher,
      is210OrHigher := is210 || is300OrHigher)
  }

  // ---------------------------------------------------------------------------------------
  // Reading the row

  predicate IsNullOrAbsent(row: Row, name: string)
  {
    name !in row || row[name].None?
  }

  function AsText(name: string, c: Cell): Result<string, DecodeError>
  {
    if c.TextCell? then Success(c.text) else Failure(WrongType(name))
  }

  function AsInt(name: string, c: Cell): Result<int32, DecodeError>
  {
    if c.IntCell? then Success(c.intValue) else Failure(WrongType(name))
  }

  function AsBool(name: string, c: Cell): Result<bool, DecodeError>
  {
    if c.BoolCell? then Success(c.boolValue) else Failure(WrongType(name))
  }

  function AsDouble(name: string, c: Cell): Result<Float64, DecodeError>
  {
    if c.DoubleCell? then Success(c.double) else Failure(WrongType(name))
  }

  /** `row.getString(name)`: `null` for a null cell. */
  function GetString(row: Row, name: string): Result<Option<string>, DecodeError>
  {
    if name !in row then Failure(NoSuchColumn(name))
    else match row[name]
      case None => Success(None)
      case Some(c) => var s :- AsText(name, c); Success(Some(s))
  }

  /** `row.getInt(name)`: 0 for a null cell. */
  function GetInt(row: Row, name: string): Result<int32, DecodeError>
  {
    if name !in row then Failure(NoSuchColumn(name))
    else match row[name]
      case None => Success(0)
      case Some(c) => AsInt(name, c)
  }

  /** `row.getBool(name)`: false for a null cell. */
  function GetBool(row: Row, name: string): Result<bool, DecodeError>
  {
    if name !in row then Failure(NoSuchColumn(name))
    else match row[name]
      case None => Success(false)
      case Some(c) => AsBool(name, c)
  }

  /** `row.getDouble(name)`: 0.0 for a null cell. */
  function GetDouble(row: Row, name: string): Result<Float64, DecodeError>
  {
    if name !in row then Failure(NoSuchColumn(name))
    else match row[name]
      case None => Success(ZERO)
      case Some(c) => AsDouble(name, c)
  }

  /** `row.getMap(name, String.class, String.class)`: an empty map for a null cell. */
  function GetTextMap(row: Row, name: string): Result<map<string, string>, DecodeError>
  {
    if name !in row then Failure(NoSuchColumn(name))
    else match row[name]
      case None => Success(map[])
      case Some(c) => if c.TextMapCell? then Success(c.textMap) else Failure(WrongType(name))
  }

  /** `row.getMap(name, String.class, ByteBuffer.class)`: an empty map for a null cell. */
  function GetBlobMap(row: Row, name: string): Result<map<string, Blob>, DecodeError>
  {
    if name !in row then Failure(NoSuchColumn(name))
    else match row[name]
      case None => Success(map[])
      case Some(c) => if c.BlobMapCell? then Success(c.blobMap) else Failure(WrongType(name))
  }

  /** A column read only when it is present and not null, with `default` standing in otherwise. */
  function TextOr(row: Row, name: string, default: string): Result<string, DecodeError>
  {
    if IsNullOrAbsent(row, name) then Success(default) else AsText(name, row[name].value)
  }

  function IntOr(row: Row, name: string, default: int32): Result<int32, DecodeError>
  {
    if IsNullOrAbsent(row, name) then Success(default) else AsInt(name, row[name].value)
  }

  function BoolOr(row: Row, name: string, default: bool): Result<bool, DecodeError>
  {
    if IsNullOrAbsent(row, name) then Success(default) else AsBool(name, row[name].value)
  }

  function DoubleOr(row: Row, name: string, default: Float64): Result<Float64, DecodeError>
  {
    if IsNullOrAbsent(row, name) then Success(default) else AsDouble(name, row[name].value)
  }

  // ---------------------------------------------------------------------------------------
  // The decoded options

  datatype TableOptionsMetadata = TableOptionsMetadata(
    isCompactStorage: bool,
    comment: string,
    readRepairChance: Float64,
    localReadRepairChance: Float64,
    readRepair: Option<string>,
    replicateOnWrite: bool,
    gcGrace: int32,
    bfFpChance: Float64,
    caching: map<string, string>,
    populateCacheOnFlush: bool,
    memtableFlushPeriodMs: int32,
    defaultTTL: int32,
    speculativeRetry: string,
    indexInterval: Option<int32>,
    minIndexInterval: Option<int32>,
    maxIndexInterval: Option<int32>,
    compaction: map<string, string>,
    compression: map<string, string>,
    crcCheckChance: Option<Float64>,
    extensions: map<string, Blob>,
    mapExtensions: map<string, map<string, string>>,
    cdc: bool,
    additionalWritePolicy: Option<string>)

  // The fields, one decoder each. A contract covers every case of its column: outside the
  // column's version range the fixed default; for a column read only when present and not
  // null, the default for a null or absent cell; for a column read unconditionally, an error
  // for a missing column and the type's default for a null cell; otherwise the cell's value
  // when it has the column's type, and a type error when it does not.

  function CommentOf(row: Row): (r: Result<string, DecodeError>)
    ensures IsNullOrAbsent(row, COMMENT) ==> r == Success("")
    ensures !IsNullOrAbsent(row, COMMENT) ==>
              r == if row[COMMENT].value.TextCell? then Success(row[COMMENT].value.text) else Failure(WrongType(COMMENT))
  {
    TextOr(row, COMMENT, "")
  }

  function ReadRepairChanceOf(row: Row): (r: Result<Float64, DecodeError>)
    ensures READ_REPAIR_CHANCE !in row ==> r == Failure(NoSuchColumn(READ_REPAIR_CHANCE))
    ensures READ_REPAIR_CHANCE in row && row[READ_REPAIR_CHANCE].None? ==> r == Success(ZERO)
    ensures !IsNullOrAbsent(row, READ_REPAIR_CHANCE) ==>
              r == if row[READ_REPAIR_CHANCE].value.DoubleCell? then Success(row[READ_REPAIR_CHANCE].value.double)
                   else Failure(WrongType(READ_REPAIR_CHANCE))
  {
    GetDouble(row, READ_REPAIR_CHANCE)
  }

  function ReadRepairOf(row: Row, version: VersionNumber): (r: Result<Option<string>, DecodeError>)
    ensures !AtLeast(version, 4, 0) ==> r == Success(Some("BLOCKING"))
    ensures AtLeast(version, 4, 0) && READ_REPAIR !in row ==> r == Failure(NoSuchColumn(READ_REPAIR))
    ensures AtLeast(version, 4, 0) && READ_REPAIR in row && row[READ_REPAIR].None? ==> r == Success(None)
    ensures AtLeast(version, 4, 0) && !IsNullOrAbsent(row, READ_REPAIR) ==>
              r == if row[READ_REPAIR].value.TextCell? then Success(Some(row[READ_REPAIR].value.text))
                   else Failure(WrongType(READ_REPAIR))
  {
    if FlagsOf(version).is400OrHigher then GetString(row, READ_REPAIR) else Success(Some(DEFAULT_READ_REPAIR))
  }

  /** The local read-repair chance moved to `dclocal_read_repair_chance` in 3.0. */
  function LocalReadRepairChanceOf(row: Row, version: VersionNumber): (r: Result<Float64, DecodeError>)
    ensures var c := if AtLeast(version, 3, 0) then DCLOCAL_READ_REPAIR_CHANCE else LOCAL_READ_REPAIR_CHANCE;
            && (c !in row ==> r == Failure(NoSuchColumn(c)))
            && (c in row && row[c].None? ==> r == Success(ZERO))
            && (!IsNullOrAbsent(row, c) ==>
                  r == if row[c].value.DoubleCell? then Success(row[c].value.double) else Failure(WrongType(c)))
  {
    GetDouble(row, if FlagsOf(version).is300OrHigher then DCLOCAL_READ_REPAIR_CHANCE else LOCAL_READ_REPAIR_CHANCE)
  }

  function ReplicateOnWriteOf(row: Row, version: VersionNumber): (r: Result<bool, DecodeError>)
    ensures AtLeast(version, 2, 1) ==> r == Success(true)
    ensures IsNullOrAbsent(row, REPLICATE_ON_WRITE) ==> r == Success(true)
    ensures !AtLeast(version, 2, 1) && !IsNullOrAbsent(row, REPLICATE_ON_WRITE) ==>
              r == if row[REPLICATE_ON_WRITE].value.BoolCell? then Success(row[REPLICATE_ON_WRITE].value.boolValue)
                   else Failure(WrongType(REPLICATE_ON_WRITE))
  {
    if FlagsOf(version).is210OrHigher then Success(DEFAULT_REPLICATE_ON_WRITE)
    else BoolOr(row, REPLICATE_ON_WRITE, DEFAULT_REPLICATE_ON_WRITE)
  }

  function GcGraceOf(row: Row): (r: Result<int32, DecodeError>)
    ensures GC_GRACE !in row ==> r == Failure(NoSuchColumn(GC_GRACE))
    ensures GC_GRACE in row && row[GC_GRACE].None? ==> r == Success(0)
    ensures !IsNullOrAbsent(row, GC_GRACE) ==>
              r == if row[GC_GRACE].value.IntCell? then Success(row[GC_GRACE].value.intValue) else Failure(WrongType(GC_GRACE))
  {
    GetInt(row, GC_GRACE)
  }

  function BfFpChanceOf(row: Row): (r: Result<Float64, DecodeError>)
    ensures IsNullOrAbsent(row, BF_FP_CHANCE) ==> r == Success(DEFAULT_BF_FP_CHANCE)
    ensures !IsNullOrAbsent(row, BF_FP_CHANCE) ==>
              r == if row[BF_FP_CHANCE].value.DoubleCell? then Success(row[BF_FP_CHANCE].value.double)
                   else Failure(WrongType(BF_FP_CHANCE))
  {
    DoubleOr(row, BF_FP_CHANCE, DEFAULT_BF_FP_CHANCE)
  }

  function PopulateCacheOnFlushOf(row: Row): (r: Result<bool, DecodeError>)
    ensures IsNullOrAbsent(row, POPULATE_CACHE_ON_FLUSH) ==> r == Success(false)
    ensures !IsNullOrAbsent(row, POPULATE_CACHE_ON_FLUSH) ==>
              r == if row[POPULATE_CACHE_ON_FLUSH].value.BoolCell? then Success(row[POPULATE_CACHE_ON_FLUSH].value.boolValue)
                   else Failure(WrongType(POPULATE_CACHE_ON_FLUSH))
  {
    BoolOr(row, POPULATE_CACHE_ON_FLUSH, DEFAULT_POPULATE_CACHE_ON_FLUSH)
  }

  function MemtableFlushPeriodMsOf(row: Row, version: VersionNumber): (r: Result<int32, DecodeError>)
    ensures !AtLeast(version, 2, 0) || IsNullOrAbsent(row, MEMTABLE_FLUSH_PERIOD_MS) ==> r == Success(0)
    ensures AtLeast(version, 2, 0) && !IsNullOrAbsent(row, MEMTABLE_FLUSH_PERIOD_MS) ==>
              r == if row[MEMTABLE_FLUSH_PERIOD_MS].value.IntCell? then Success(row[MEMTABLE_FLUSH_PERIOD_MS].value.intValue)
                   else Failure(WrongType(MEMTABLE_FLUSH_PERIOD_MS))
  {
    if FlagsOf(version).is120 then Success(DEFAULT_MEMTABLE_FLUSH_PERIOD)
    else IntOr(row, MEMTABLE_FLUSH_PERIOD_MS, DEFAULT_MEMTABLE_FLUSH_PERIOD)
  }

  function DefaultTTLOf(row: Row, version: VersionNumber): (r: Result<int32, DecodeError>)
    ensures !AtLeast(version, 2, 0) || IsNullOrAbsent(row, DEFAULT_TTL) ==> r == Success(0)
    ensures AtLeast(version, 2, 0) && !IsNullOrAbsent(row, DEFAULT_TTL) ==>
              r == if row[DEFAULT_TTL].value.IntCell? then Success(row[DEFAULT_TTL].value.intValue)
                   else Failure(WrongType(DEFAULT_TTL))
  {
    if FlagsOf(version).is120 then Success(DEFAULT_DEFAULT_TTL) else IntOr(row, DEFAULT_TTL, DEFAULT_DEFAULT_TTL)
  }

  function SpeculativeRetryOf(row: Row, version: VersionNumber): (r: Result<string, DecodeError>)
    ensures !AtLeast(version, 2, 0) || IsNullOrAbsent(row, SPECULATIVE_RETRY) ==> r == Success("NONE")
    ensures AtLeast(version, 2, 0) && !IsNullOrAbsent(row, SPECULATIVE_RETRY) ==>
              r == if row[SPECULATIVE_RETRY].value.TextCell? then Success(row[SPECULATIVE_RETRY].value.text)
                   else Failure(WrongType(SPECULATIVE_RETRY))
  {
    if FlagsOf(version).is120 then Success(DEFAULT_SPECULATIVE_RETRY)
    else TextOr(row, SPECULATIVE_RETRY, DEFAULT_SPECULATIVE_RETRY)
  }

  /** `index_interval` exists only in 2.0. */
  function IndexIntervalOf(row: Row, version: VersionNumber): (r: Result<Option<int32>, DecodeError>)
    ensures !(AtLeast(version, 2, 0) && !AtLeast(version, 2, 1)) ==> r == Success(None)
    ensures AtLeast(version, 2, 0) && !AtLeast(version, 2, 1) && IsNullOrAbsent(row, INDEX_INTERVAL) ==> r == Success(Some(128))
    ensures AtLeast(version, 2, 0) && !AtLeast(version, 2, 1) && !IsNullOrAbsent(row, INDEX_INTERVAL) ==>
              r == if row[INDEX_INTERVAL].value.IntCell? then Success(Some(row[INDEX_INTERVAL].value.intValue))
                   else Failure(WrongType(INDEX_INTERVAL))
  {
    if FlagsOf(version).is200 then
      var i :- IntOr(row, INDEX_INTERVAL, DEFAULT_INDEX_INTERVAL); Success(Some(i))
    else Success(None)
  }

  /** `min_index_interval` and `max_index_interval` replace `index_interval` from 2.1 on. */
  function MinIndexIntervalOf(row: Row, version: VersionNumber): (r: Result<Option<int32>, DecodeError>)
    ensures !AtLeast(version, 2, 1) ==> r == Success(None)
    ensures AtLeast(version, 2, 1) && IsNullOrAbsent(row, MIN_INDEX_INTERVAL) ==> r == Success(Some(128))
    ensures AtLeast(version, 2, 1) && !IsNullOrAbsent(row, MIN_INDEX_INTERVAL) ==>
              r == if row[MIN_INDEX_INTERVAL].value.IntCell? then Success(Some(row[MIN_INDEX_INTERVAL].value.intValue))
                   else Failure(WrongType(MIN_INDEX_INTERVAL))
  {
    if FlagsOf(version).is210OrHigher then
      var i :- IntOr(row, MIN_INDEX_INTERVAL, DEFAULT_MIN_INDEX_INTERVAL); Success(Some(i))
    else Success(None)
  }

  function MaxIndexIntervalOf(row: Row, version: VersionNumber): (r: Result<Option<int32>, DecodeError>)
    ensures !AtLeast(version, 2, 1) ==> r == Success(None)
    ensures AtLeast(version, 2, 1) && IsNullOrAbsent(row, MAX_INDEX_INTERVAL) ==> r == Success(Some(2048))
    ensures AtLeast(version, 2, 1) && !IsNullOrAbsent(row, MAX_INDEX_INTERVAL) ==>
              r == if row[MAX_INDEX_INTERVAL].value.IntCell? then Success(Some(row[MAX_INDEX_INTERVAL].value.intValue))
                   else Failure(WrongType(MAX_INDEX_INTERVAL))
  {
    if FlagsOf(version).is210OrHigher then
      var i :- IntOr(row, MAX_INDEX_INTERVAL, DEFAULT_MAX_INDEX_INTERVAL); Success(Some(i))
    else Success(None)
  }

  /**
   * `caching`: a map column from 3.0; before that a text column, holding a JSON map in 2.1
   * and a bare `keys` value, which must not be null, before 2.1.
   */
  function CachingOf(row: Row, version: VersionNumber, parsers: Parsers): (r: Result<map<string, string>, DecodeError>)
    ensures CACHING !in row ==> r == Failure(NoSuchColumn(CACHING))
    ensures AtLeast(version, 3, 0) && CACHING in row && row[CACHING].None? ==> r == Success(map[])
    ensures AtLeast(version, 3, 0) && !IsNullOrAbsent(row, CACHING) ==>
              r == if row[CACHING].value.TextMapCell? then Success(row[CACHING].value.textMap) else Failure(WrongType(CACHING))
    ensures AtLeast(version, 2, 1) && !AtLeast(version, 3, 0) && CACHING in row && row[CACHING].None? ==>
              r == Success(parsers.parseStringMap(None))
    ensures AtLeast(version, 2, 1) && !AtLeast(version, 3, 0) && !IsNullOrAbsent(row, CACHING) ==>
              r == if row[CACHING].value.TextCell? then Success(parsers.parseStringMap(Some(row[CACHING].value.text)))
                   else Failure(WrongType(CACHING))
    ensures !AtLeast(version, 2, 1) && CACHING in row && row[CACHING].None? ==> r == Failure(NullValue(CACHING))
    ensures !AtLeast(version, 2, 1) && !IsNullOrAbsent(row, CACHING) ==>
              r == if row[CACHING].value.TextCell? then Success(map["keys" := row[CACHING].value.text])
                   else Failure(WrongType(CACHING))
  {
    var f := FlagsOf(version);
    if f.is300OrHigher then GetTextMap(row, CACHING)
    else
      var text :- GetString(row, CACHING);
      if f.is210 then Success(parsers.parseStringMap(text))
      else if text.None? then Failure(NullValue(CACHING))
      else Success(map["keys" := text.value])
  }

  /**
   * `compaction`: a map column from 3.0; before that the strategy class, which must not be
   * null, under `class`, together with the strategy's JSON options, which must not repeat `class`.
   */
  function CompactionOf(row: Row, version: VersionNumber, parsers: Parsers): (r: Result<map<string, string>, DecodeError>)
    ensures AtLeast(version, 3, 0) && COMPACTION !in row ==> r == Failure(NoSuchColumn(COMPACTION))
    ensures AtLeast(version, 3, 0) && COMPACTION in row && row[COMPACTION].None? ==> r == Success(map[])
    ensures AtLeast(version, 3, 0) && !IsNullOrAbsent(row, COMPACTION) ==>
              r == if row[COMPACTION].value.TextMapCell? then Success(row[COMPACTION].value.textMap)
                   else Failure(WrongType(COMPACTION))
    // before 3.0 the class is read first, and a missing, null or non-text class is the error
    ensures !AtLeast(version, 3, 0) && COMPACTION_CLASS !in row ==> r == Failure(NoSuchColumn(COMPACTION_CLASS))
    ensures !AtLeast(version, 3, 0) && COMPACTION_CLASS in row && row[COMPACTION_CLASS].None? ==>
              r == Failure(NullValue(COMPACTION_CLASS))
    ensures !AtLeast(version, 3, 0) && !IsNullOrAbsent(row, COMPACTION_CLASS) && !row[COMPACTION_CLASS].value.TextCell? ==>
              r == Failure(WrongType(COMPACTION_CLASS))
    // then the options text, and the entries
    ensures !AtLeast(version, 3, 0) && !IsNullOrAbsent(row, COMPACTION_CLASS) && row[COMPACTION_CLASS].value.TextCell? ==>
              match GetString(row, COMPACTION_OPTIONS)
              case Failure(e) => r == Failure(e)
              case Success(text) =>
                var options := parsers.parseStringMap(text);
                r == if "class" in options then Failure(DuplicateKey("class"))
                     else Success(options["class" := row[COMPACTION_CLASS].value.text])
  {
    if FlagsOf(version).is300OrHigher then GetTextMap(row, COMPACTION)
    else
      var strategy :- GetString(row, COMPACTION_CLASS);
      if strategy.None? then Failure(NullValue(COMPACTION_CLASS))
      else
        var optionsText :- GetString(row, COMPACTION_OPTIONS);
        var options := parsers.parseStringMap(optionsText);
        if "class" in options then Failure(DuplicateKey("class"))
        else Success(options["class" := strategy.value])
  }

  /** `compression`: a map column from 3.0; before that the JSON map held by `compression_parameters`. */
  function CompressionOf(row: Row, version: VersionNumber, parsers: Parsers): (r: Result<map<string, string>, DecodeError>)
    ensures AtLeast(version, 3, 0) && COMPRESSION !in row ==> r == Failure(NoSuchColumn(COMPRESSION))
    ensures AtLeast(version, 3, 0) && COMPRESSION in row && row[COMPRESSION].None? ==> r == Success(map[])
    ensures AtLeast(version, 3, 0) && !IsNullOrAbsent(row, COMPRESSION) ==>
              r == if row[COMPRESSION].value.TextMapCell? then Success(row[COMPRESSION].value.textMap)
                   else Failure(WrongType(COMPRESSION))
    ensures !AtLeast(version, 3, 0) && COMPRESSION_PARAMS !in row ==> r == Failure(NoSuchColumn(COMPRESSION_PARAMS))
    ensures !AtLeast(version, 3, 0) && COMPRESSION_PARAMS in row && row[COMPRESSION_PARAMS].None? ==>
              r == Success(parsers.parseStringMap(None))
    ensures !AtLeast(version, 3, 0) && !IsNullOrAbsent(row, COMPRESSION_PARAMS) ==>
              r == if row[COMPRESSION_PARAMS].value.TextCell? then Success(parsers.parseStringMap(Some(row[COMPRESSION_PARAMS].value.text)))
                   else Failure(WrongType(COMPRESSION_PARAMS))
  {
    if FlagsOf(version).is300OrHigher then GetTextMap(row, COMPRESSION)
    else var text :- GetString(row, COMPRESSION_PARAMS); Success(parsers.parseStringMap(text))
  }

  function CrcCheckChanceOf(row: Row, version: VersionNumber): (r: Result<Option<Float64>, DecodeError>)
    ensures !AtLeast(version, 3, 0) ==> r == Success(None)
    ensures AtLeast(version, 3, 0) && IsNullOrAbsent(row, CRC_CHECK_CHANCE) ==> r == Success(Some(DEFAULT_CRC_CHECK_CHANCE))
    ensures AtLeast(version, 3, 0) && !IsNullOrAbsent(row, CRC_CHECK_CHANCE) ==>
              r == if row[CRC_CHECK_CHANCE].value.DoubleCell? then Success(Some(row[CRC_CHECK_CHANCE].value.double))
                   else Failure(WrongType(CRC_CHECK_CHANCE))
  {
    if FlagsOf(version).is300OrHigher then
      var d :- DoubleOr(row, CRC_CHECK_CHANCE, DEFAULT_CRC_CHECK_CHANCE); Success(Some(d))
    else Success(None)
  }

  function ExtensionsOf(row: Row, version: VersionNumber): (r: Result<map<string, Blob>, DecodeError>)
    ensures !AtLeast(version, 3, 0) ==> r == Success(map[])
    ensures AtLeast(version, 3, 0) && EXTENSIONS !in row ==> r == Failure(NoSuchColumn(EXTENSIONS))
    ensures AtLeast(version, 3, 0) && EXTENSIONS in row && row[EXTENSIONS].None? ==> r == Success(map[])
    ensures AtLeast(version, 3, 0) && !IsNullOrAbsent(row, EXTENSIONS) ==>
              r == if row[EXTENSIONS].value.BlobMapCell? then Success(row[EXTENSIONS].value.blobMap)
                   else Failure(WrongType(EXTENSIONS))
  {
    if FlagsOf(version).is300OrHigher then GetBlobMap(row, EXTENSIONS) else Success(map[])
  }

  function CdcOf(row: Row, version: VersionNumber): (r: Result<bool, DecodeError>)
    ensures !AtLeast(version, 3, 8) || IsNullOrAbsent(row, CDC) ==> r == Success(false)
    ensures AtLeast(version, 3, 8) && !IsNullOrAbsent(row, CDC) ==>
              r == if row[CDC].value.BoolCell? then Success(row[CDC].value.boolValue) else Failure(WrongType(CDC))
  {
    if FlagsOf(version).is380OrHigher then BoolOr(row, CDC, DEFAULT_CDC) else Success(DEFAULT_CDC)
  }

  function AdditionalWritePolicyOf(row: Row, version: VersionNumber): (r: Result<Option<string>, DecodeError>)
    ensures !AtLeast(version, 4, 0) ==> r == Success(Some("99p"))
    ensures AtLeast(version, 4, 0) && ADDITIONAL_WRITE_POLICY !in row ==> r == Failure(NoSuchColumn(ADDITIONAL_WRITE_POLICY))
    ensures AtLeast(version, 4, 0) && ADDITIONAL_WRITE_POLICY in row && row[ADDITIONAL_WRITE_POLICY].None? ==>
              r == Success(None)
    ensures AtLeast(version, 4, 0) && !IsNullOrAbsent(row, ADDITIONAL_WRITE_POLICY) ==>
              r == if row[ADDITIONAL_WRITE_POLICY].value.TextCell? then Success(Some(row[ADDITIONAL_WRITE_POLICY].value.text))
                   else Failure(WrongType(ADDITIONAL_WRITE_POLICY))
  {
    if FlagsOf(version).is400OrHigher then GetString(row, ADDITIONAL_WRITE_POLICY)
    else Success(Some(DEFAULT_ADDITIONAL_WRITE_POLICY))
  }

  /** Every column the constructor reads decodes without an exception. */
  predicate ColumnsDecode(row: Row, version: VersionNumber, parsers: Parsers)
  {
    && CommentOf(row).Success?
    && ReadRepairChanceOf(row).Success?
    && ReadRepairOf(row, version).Success?
    && LocalReadRepairChanceOf(row, version).Success?
    && ReplicateOnWriteOf(row, version).Success?
    && GcGraceOf(row).Success?
    && BfFpChanceOf(row).Success?
    && PopulateCacheOnFlushOf(row).Success?
    && MemtableFlushPeriodMsOf(row, version).Success?
    && DefaultTTLOf(row, version).Success?
    && SpeculativeRetryOf(row, version).Success?
    && IndexIntervalOf(row, version).Success?
    && MinIndexIntervalOf(row, version).Success?
    && MaxIndexIntervalOf(row, version).Success?
    && CachingOf(row, version, parsers).Success?
    && CompactionOf(row, version, parsers).Success?
    && CompressionOf(row, version, parsers).Success?
    && CrcCheckChanceOf(row, version).Success?
    && ExtensionsOf(row, version).Success?
    && CdcOf(row, version).Success?
    && AdditionalWritePolicyOf(row, version).Success?
  }

  /** Every field of `o` but `mapExtensions` is what its own decoder yields for the row. */
  predicate FieldsDecodedFrom(o: TableOptionsMetadata, row: Row, isCompactStorage: bool, version: VersionNumber,
                              parsers: Parsers)
  {
    && o.isCompactStorage == isCompactStorage
    && CommentOf(row) == Success(o.comment)
    && ReadRepairChanceOf(row) == Success(o.readRepairChance)
    && ReadRepairOf(row, version) == Success(o.readRepair)
    && LocalReadRepairChanceOf(row, version) == Success(o.localReadRepairChance)
    && ReplicateOnWriteOf(row, version) == Success(o.replicateOnWrite)
    && GcGraceOf(row) == Success(o.gcGrace)
    && BfFpChanceOf(row) == Success(o.bfFpChance)
    && PopulateCacheOnFlushOf(row) == Success(o.populateCacheOnFlush)
    && MemtableFlushPeriodMsOf(row, version) == Success(o.memtableFlushPeriodMs)
    && DefaultTTLOf(row, version) == Success(o.defaultTTL)
    && SpeculativeRetryOf(row, version) == Success(o.speculativeRetry)
    && IndexIntervalOf(row, version) == Success(o.indexInterval)
    && MinIndexIntervalOf(row, version) == Success(o.minIndexInterval)
    && MaxIndexIntervalOf(row, version) == Success(o.maxIndexInterval)
    && CachingOf(row, version, parsers) == Success(o.caching)
    && CompactionOf(row, version, parsers) == Success(o.compaction)
    && CompressionOf(row, version, parsers) == Success(o.compression)
    && CrcCheckChanceOf(row, version) == Success(o.crcCheckChance)
    && ExtensionsOf(row, version) == Success(o.extensions)
    && CdcOf(row, version) == Success(o.cdc)
    && AdditionalWritePolicyOf(row, version) == Success(o.additionalWritePolicy)
  }

  /** Every field the constructor reads from the row, with `mapExtensions` still empty. */
  function DecodeColumns(row: Row, isCompactStorage: bool, version: VersionNumber, parsers: Parsers)
    : (r: Result<TableOptionsMetadata, DecodeError>)
    ensures r.Success? <==> ColumnsDecode(row, version, parsers)
    ensures r.Success? ==> FieldsDecodedFrom(r.value, row, isCompactStorage, version, parsers) && r.value.mapExtensions == map[]
  {
    var comment :- CommentOf(row);
    var readRepairChance :- ReadRepairChanceOf(row);
    var readRepair :- ReadRepairOf(row, version);
    var localReadRepairChance :- LocalReadRepairChanceOf(row, version);
    var replicateOnWrite :- ReplicateOnWriteOf(row, version);
    var gcGrace :- GcGraceOf(row);
    var bfFpChance :- BfFpChanceOf(row);
    var populateCacheOnFlush :- PopulateCacheOnFlushOf(row);
    var memtableFlushPeriodMs :- MemtableFlushPeriodMsOf(row, version);
    var defaultTTL :- DefaultTTLOf(row, version);
    var speculativeRetry :- SpeculativeRetryOf(row, version);
    var indexInterval :- IndexIntervalOf(row, version);
    var minIndexInterval :- MinIndexIntervalOf(row, version);
    var maxIndexInterval :- MaxIndexIntervalOf(row, version);
    var caching :- CachingOf(row, version, parsers);
    var compaction :- CompactionOf(row, version, parsers);
    var compression :- CompressionOf(row, version, parsers);
    var crcCheckChance :- CrcCheckChanceOf(row, version);
    var extensions :- ExtensionsOf(row, version);
    var cdc :- CdcOf(row, version);
    var additionalWritePolicy :- AdditionalWritePolicyOf(row, version);
    Success(TableOptionsMetadata(
      isCompactStorage, comment, readRepairChance, localReadRepairChance, readRepair, replicateOnWrite,
      gcGrace, bfFpChance, caching, populateCacheOnFlush, memtableFlushPeriodMs, defaultTTL,
      speculativeRetry, indexInterval, minIndexInterval, maxIndexInterval, compaction, compression,
      crcCheckChance, extensions, map[], cdc, additionalWritePolicy))
  }

  /** The decoded form of the extensions named in MAP_EXTENSIONS that are present. */
  function MapExtensionsOf(extensions: map<string, Blob>, parse: Blob -> map<string, string>)
    : (m: map<string, map<string, string>>)
    ensures forall name :: name in m <==> name in MAP_EXTENSIONS && name in extensions
    ensures forall name :: name in m ==> m[name] == parse(extensions[name])
  {
    map name | name in MAP_EXTENSIONS && name in extensions :: parse(extensions[name])
  }

  /**
   * What the constructor computes: the table options of `row` for a server at `version`, or
   * the exception it throws when a column it reads is missing, of the wrong type or null
   * where null is refused.
   */
  function Decode(row: Row, isCompactStorage: bool, version: VersionNumber, parsers: Parsers)
    : (r: Result<TableOptionsMetadata, DecodeError>)
    ensures r.Success? <==> ColumnsDecode(row, version, parsers)
    ensures r.Success? ==> FieldsDecodedFrom(r.value, row, isCompactStorage, version, parsers)
    // the decoded extensions are exactly the known ones that are present
    ensures r.Success? ==> forall name :: name in r.value.mapExtensions <==> name in MAP_EXTENSIONS && name in r.value.extensions
    ensures r.Success? ==> forall name :: name in r.value.mapExtensions ==>
              r.value.mapExtensions[name] == parsers.parseExtension(r.value.extensions[name])
  {
    var columns :- DecodeColumns(row, isCompactStorage, version, parsers);
    Success(columns.(mapExtensions := MapExtensionsOf(columns.extensions, parsers.parseExtension)))
  }

  /** The version-dependent defaults a decoded table shows, whatever its row holds. */
  lemma DecodedDefaultsFollowVersion(row: Row, isCompactStorage: bool, version: VersionNumber, parsers: Parsers)
    requires Decode(row, isCompactStorage, version, parsers).Success?
    ensures var o := Decode(row, isCompactStorage, version, parsers).value;
            && READ_REPAIR_CHANCE in row && GC_GRACE in row
            && (IsNullOrAbsent(row, COMMENT) ==> o.comment == "")
            && (AtLeast(version, 2, 1) || IsNullOrAbsent(row, REPLICATE_ON_WRITE) ==> o.replicateOnWrite)
            && (!AtLeast(version, 2, 0) ==> o.memtableFlushPeriodMs == 0 && o.defaultTTL == 0 && o.speculativeRetry == "NONE")
            && (o.indexInterval.Some? <==> AtLeast(version, 2, 0) && !AtLeast(version, 2, 1))
            && (o.minIndexInterval.Some? <==> AtLeast(version, 2, 1))
            && (o.maxIndexInterval.Some? <==> AtLeast(version, 2, 1))
            && (!AtLeast(version, 3, 0) ==> o.crcCheckChance.None? && o.extensions == map[] && o.mapExtensions == map[])
            && (!AtLeast(version, 3, 8) ==> !o.cdc)
            && (!AtLeast(version, 4, 0) ==> o.readRepair == Some("BLOCKING") && o.additionalWritePolicy == Some("99p"))
  {
  }

  /** The loop of the constructor that decodes the known extensions one after the other. */
  method CollectMapExtensions(extensions: map<string, Blob>, parse: Blob -> map<string, string>)
    returns (m: map<string, map<string, string>>)
    ensures forall name :: name in m <==> name in MAP_EXTENSIONS && name in extensions
    ensures forall name :: name in m ==> m[name] == parse(extensions[name])
  {
    m := map[];
    for i := 0 to |MAP_EXTENSIONS|
      invariant forall name :: name in m <==> name in MAP_EXTENSIONS[..i] && name in extensions
      invariant forall name :: name in m ==> m[name] == parse(extensions[name])
    {
      var mapExtension := MAP_EXTENSIONS[i];
      if mapExtension in extensions {
        m := m[mapExtension := parse(extensions[mapExtension])];
      }
      assert MAP_EXTENSIONS[..i + 1] == MAP_EXTENSIONS[..i] + [mapExtension];
    }
    assert MAP_EXTENSIONS[..|MAP_EXTENSIONS|] == MAP_EXTENSIONS;
  }

  /** The constructor: the field decoding, then the extension loop. */
  method New(row: Row, isCompactStorage: bool, version: VersionNumber, parsers: Parsers)
    returns (r: Result<TableOptionsMetadata, DecodeError>)
    ensures r == Decode(row, isCompactStorage, version, parsers)
  {
    var columns :- DecodeColumns(row, isCompactStorage, version, parsers);
    var mapExtensions := CollectMapExtensions(columns.extensions, parsers.parseExtension);
    assert mapExtensions == MapExtensionsOf(columns.extensions, parsers.parseExtension);
    r := Success(columns.(mapExtensions := mapExtensions));
  }

  // ---------------------------------------------------------------------------------------
  // Queries on decoded options

  /** `isScyllaCDC`: the table carries the Scylla `cdc` extension. */
  predicate IsScyllaCDC(o: TableOptionsMetadata)
  {
    SCYLLA_CDC_EXTENSION in o.mapExtensions
  }

  function ScyllaCDCOptions(o: TableOptionsMetadata): (r: Option<map<string, string>>)
    ensures r.Some? <==> IsScyllaCDC(o)
    ensures r.Some? ==> r.value == o.mapExtensions[SCYLLA_CDC_EXTENSION]
  {
    if SCYLLA_CDC_EXTENSION in o.mapExtensions then Some(o.mapExtensions[SCYLLA_CDC_EXTENSION]) else None
  }

  function ScyllaEncryptionOptions(o: TableOptionsMetadata): (r: Option<map<string, string>>)
    ensures r.Some? <==> SCYLLA_ENCRYPTION_OPTIONS_EXTENSION in o.mapExtensions
    ensures r.Some? ==> r.value == o.mapExtensions[SCYLLA_ENCRYPTION_OPTIONS_EXTENSION]
  {
    if SCYLLA_ENCRYPTION_OPTIONS_EXTENSION in o.mapExtensions
    then Some(o.mapExtensions[SCYLLA_ENCRYPTION_OPTIONS_EXTENSION])
    else None
  }

  function ScyllaAlternatorTags(o: TableOptionsMetadata): (r: Option<map<string, string>>)
    ensures r.Some? <==> SCYLLA_TAGS_EXTENSION in o.mapExtensions
    ensures r.Some? ==> r.value == o.mapExtensions[SCYLLA_TAGS_EXTENSION]
  {
    if SCYLLA_TAGS_EXTENSION in o.mapExtensions then Some(o.mapExtensions[SCYLLA_TAGS_EXTENSION]) else None
  }

  /** A decoded table is a Scylla CDC table exactly when its row's extensions include `cdc`, which needs 3.0. */
  lemma ScyllaCDCFollowsExtensions(row: Row, isCompactStorage: bool, version: VersionNumber, parsers: Parsers)
    requires Decode(row, isCompactStorage, version, parsers).Success?
    ensures var o := Decode(row, isCompactStorage, version, parsers).value;
            (IsScyllaCDC(o) <==> SCYLLA_CDC_EXTENSION in o.extensions)
            && (!AtLeast(version, 3, 0) ==> !IsScyllaCDC(o))
  {
    var o := Decode(row, isCompactStorage, version, parsers).value;
    assert SCYLLA_CDC_EXTENSION in MAP_EXTENSIONS;
  }

  /** `o` with its double-valued fields blanked out, for comparing everything else. */
  /** Two end-to-end consequences: the `cdc` cell of a 3.8 row, and the Scylla flag of a 3.0 row's extensions. */
  lemma DecodedFlagsFollowTheRow(row: Row, isCompactStorage: bool, version: VersionNumber, parsers: Parsers)
    requires Decode(row, isCompactStorage, version, parsers).Success?
    ensures var o := Decode(row, isCompactStorage, version, parsers).value;
            && (AtLeast(version, 3, 8) && !IsNullOrAbsent(row, CDC) ==>
                  row[CDC].value.BoolCell? && o.cdc == row[CDC].value.boolValue)
            && (AtLeast(version, 3, 0) && !IsNullOrAbsent(row, EXTENSIONS) ==>
                  row[EXTENSIONS].value.BlobMapCell?
                  && (IsScyllaCDC(o) <==> SCYLLA_CDC_EXTENSION in row[EXTENSIONS].value.blobMap))
  {
    assert SCYLLA_CDC_EXTENSION in MAP_EXTENSIONS;
  }

  function WithoutDoubles(o: TableOptionsMetadata): TableOptionsMetadata
  {
    o.(readRepairChance := ZERO, localReadRepairChance := ZERO, bfFpChance := ZERO, crcCheckChance := None)
  }

  /**
   * `equals`: every field agrees, the primitive doubles by `==` and the boxed
   * `crcCheckChance` by `Double.equals`.
   */
  function Equals(a: TableOptionsMetadata, b: TableOptionsMetadata): (r: bool)
  {
    && a.isCompactStorage == b.isCompactStorage
    && a.comment == b.comment
    && PrimitiveEquals(a.readRepairChance, b.readRepairChance)
    && PrimitiveEquals(a.localReadRepairChance, b.localReadRepairChance)
    && a.readRepair == b.readRepair
    && a.replicateOnWrite == b.replicateOnWrite
    && a.gcGrace == b.gcGrace
    && PrimitiveEquals(a.bfFpChance, b.bfFpChance)
    && a.caching == b.caching
    && a.populateCacheOnFlush == b.populateCacheOnFlush
    && a.memtableFlushPeriodMs == b.memtableFlushPeriodMs
    && a.defaultTTL == b.defaultTTL
    && a.cdc == b.cdc
    && a.speculativeRetry == b.speculativeRetry
    && a.indexInterval == b.indexInterval
    && a.minIndexInterval == b.minIndexInterval
    && a.maxIndexInterval == b.maxIndexInterval
    && a.compaction == b.compaction
    && a.compression == b.compression
    && BoxedEquals(a.crcCheckChance, b.crcCheckChance)
    && a.additionalWritePolicy == b.additionalWritePolicy
    && a.extensions == b.extensions
    && a.mapExtensions == b.mapExtensions
  }

  /** Equal values are `equals` unless a primitive double field holds NaN. */
  lemma EqualsIsReflexiveWithoutNaN(a: TableOptionsMetadata)
    requires !IsNaN(a.readRepairChance) && !IsNaN(a.localReadRepairChance) && !IsNaN(a.bfFpChance)
    ensures Equals(a, a)
  {
  }

  /** A NaN in a primitive double field makes `equals` false, even against an identical copy. */
  lemma NaNChanceIsNeverEqual(a: TableOptionsMetadata, b: TableOptionsMetadata)
    requires IsNaN(a.readRepairChance) || IsNaN(a.localReadRepairChance) || IsNaN(a.bfFpChance)
    ensures !Equals(a, b)
  {
  }

  lemma EqualsIsSymmetric(a: TableOptionsMetadata, b: TableOptionsMetadata)
    ensures Equals(a, b) == Equals(b, a)
  {
  }

  /** `equals` compares the doubles as Java does and every other field by value. */
  lemma EqualsComparesAllButDoubles(a: TableOptionsMetadata, b: TableOptionsMetadata)
    ensures Equals(a, b) <==>
              && WithoutDoubles(a) == WithoutDoubles(b)
              && PrimitiveEquals(a.readRepairChance, b.readRepairChance)
              && PrimitiveEquals(a.localReadRepairChance, b.localReadRepairChance)
              && PrimitiveEquals(a.bfFpChance, b.bfFpChance)
              && BoxedEquals(a.crcCheckChance, b.crcCheckChance)
  {
    var wa, wb := WithoutDoubles(a), WithoutDoubles(b);
    assert wa == wb <==> (wa.isCompactStorage == wb.isCompactStorage && wa.comment == wb.comment && wa.readRepair == wb.readRepair
      && wa.replicateOnWrite == wb.replicateOnWrite && wa.gcGrace == wb.gcGrace && wa.caching == wb.caching
      && wa.populateCacheOnFlush == wb.populateCacheOnFlush && wa.memtableFlushPeriodMs == wb.memtableFlushPeriodMs
      && wa.defaultTTL == wb.defaultTTL && wa.cdc == wb.cdc && wa.speculativeRetry == wb.speculativeRetry
      && wa.indexInterval == wb.indexInterval && wa.minIndexInterval == wb.minIndexInterval
      && wa.maxIndexInterval == wb.maxIndexInterval && wa.compaction == wb.compaction
      && wa.compression == wb.compression && wa.additionalWritePolicy == wb.additionalWritePolicy
      && wa.extensions == wb.extensions && wa.mapExtensions == wb.mapExtensions);
  }
}
