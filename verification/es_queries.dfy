/** The two query builders of `ElasticsearchQueries` (es_queries.py): the
    body that creates an index from a table's column types, and the
    timestamp range used to count rows. */
module EsQueries {
  import opened Wrappers

  /** The type object of a DataFrame column (`dtype.type`), as compared
      against in the builder; any other type is `OtherType`. */
  datatype ColumnType = DateTime64 | Float64 | Str | Int64 | Object | OtherType(name: string)

  /** A property descriptor: `{'type': kind}` plus `'format'` when present. */
  datatype Property = Property(kind: string, format: Option<string>)

  /** `{'dynamic': .., 'properties': {..}}` of one mapping. */
  datatype Mapping = Mapping(dynamic: string, properties: map<string, Property>)

  /** `{'settings': {'number_of_shards': .., 'number_of_replicas': ..},
        'mappings': {index name: mapping}}`. */
  datatype IndexBody = IndexBody(shards: int, replicas: int, mappings: map<string, Mapping>)

  const DateProperty := Property("date", Some("strict_date_hour_minute_second"))

  /** The translation table from column types to descriptors. */
  function Descriptor(t: ColumnType): Option<Property> {
    match t
    case DateTime64 => Some(DateProperty)
    case Float64 => Some(Property("float", None))
    case Int64 => Some(Property("integer", None))
    case Str => Some(Property("text", None))
    case Object => Some(Property("text", None))
    case OtherType(_) => None
  }

  /** The body of the loop over `columns.items()`, branch by branch: the
      float branch has no `continue` and falls through to the later tests,
      which is harmless since none of them matches a float. */
  function ApplyColumn(props: map<string, Property>, key: string, t: ColumnType): (r: map<string, Property>)
    // a tabled type sets the column's descriptor and touches nothing else
    ensures Descriptor(t).Some? ==> r == props[key := Descriptor(t).value]
    // any other type leaves the properties unchanged
    ensures Descriptor(t).None? ==> r == props
  {
    if t == DateTime64 then props[key := DateProperty]
    else
      var afterFloat := if t == Float64 then props[key := Property("float", None)] else props;
      if t == Str then afterFloat[key := Property("text", None)]
      else if t == Int64 then afterFloat[key := Property("integer", None)]
      else if t == Object then afterFloat[key := Property("text", None)]
      else afterFloat
  }

  /** The `properties` dict built from the column types. */
  method ColumnProperties(columns: map<string, ColumnType>) returns (props: map<string, Property>)
    ensures props.Keys <= columns.Keys
    ensures forall k :: k in props <==> k in columns && Descriptor(columns[k]).Some?
    ensures forall k :: k in props ==> props[k] == Descriptor(columns[k]).value
  {
    props := map[];
    var remaining := columns.Keys;
    while remaining != {}
      invariant remaining <= columns.Keys
      invariant forall k :: k in props <==> k in columns && k !in remaining && Descriptor(columns[k]).Some?
      invariant forall k :: k in props ==> props[k] == Descriptor(columns[k]).value
      decreases remaining
    {
      var key :| key in remaining;
      props := ApplyColumn(props, key, columns[key]);
      remaining := remaining - {key};
    }
  }

  /** `get_query_create_new_index`: one strict mapping keyed by the index
      name, holding the column properties, and the shard and replica counts
      as given (1 each by default). */
  method CreateNewIndexQuery(indexName: string, columns: map<string, ColumnType>,
                             shards: int := 1, replicas: int := 1) returns (body: IndexBody)
    ensures body.shards == shards && body.replicas == replicas
    ensures body.mappings.Keys == {indexName}
    ensures body.mappings[indexName].dynamic == "strict"
    ensures var props := body.mappings[indexName].properties;
      && (forall k :: k in props <==> k in columns && Descriptor(columns[k]).Some?)
      && (forall k :: k in props ==> props[k] == Descriptor(columns[k]).value)
  {
    var props := ColumnProperties(columns);
    body := IndexBody(shards, replicas, map[indexName := Mapping("strict", props)]);
  }

  /** Defaults: one shard and one replica; a datetime column gets the date
      format, a float64 column `float`, an int64 column `integer`, and str or
      object columns `text`. */
  method DefaultIndexQueryExample() returns (body: IndexBody)
    ensures body.shards == 1 && body.replicas == 1
    ensures "events" in body.mappings
    ensures body.mappings["events"].properties == map[
      "ts" := DateProperty, "x" := Property("float", None),
      "n" := Property("integer", None), "s" := Property("text", None),
      "o" := Property("text", None)]
  {
    var columns := map["ts" := DateTime64, "x" := Float64, "n" := Int64, "s" := Str,
                       "o" := Object, "b" := OtherType("bool_")];
    body := CreateNewIndexQuery("events", columns);
    var props := body.mappings["events"].properties;
    assert props.Keys == {"ts", "x", "n", "s", "o"};
  }

  // ---------------------------------------------------------------------
  // Counting rows
  // ---------------------------------------------------------------------

  /** Datetimes are whole seconds since the epoch. */
  const SecondsPerDay := 86400

  /** The calendar day a datetime falls on (floor division). */
  function Day(t: int): int {
    t / SecondsPerDay
  }

  /** `{'query': {'range': {'timestamp': {'gte': .., 'lte': ..}}}}`. */
  datatype RangeQuery = RangeQuery(gte: int, lte: int)

  /** `get_query_count_num_of_rows`: without an end date the window is the
      whole calendar day of the start date, from midnight to one second
      before the next midnight. */
  function CountRowsQuery(start: int, end: Option<int>): (q: RangeQuery)
    // with an end date both bounds are passed through unchanged
    ensures end.Some? ==> q == RangeQuery(start, end.value)
    // without one, the window is the start's day: it begins at a midnight at
    // or before the start, less than a day earlier ...
    ensures end.None? ==> q.gte % SecondsPerDay == 0 && q.gte <= start < q.gte + SecondsPerDay
    // ... and ends one second before the next midnight, on the same day
    ensures end.None? ==> q.lte - q.gte == SecondsPerDay - 1
    ensures end.None? ==> Day(q.gte) == Day(start) == Day(q.lte)
  {
    if end.None? then
      var midnight := start - start % SecondsPerDay;
      RangeQuery(midnight, midnight + SecondsPerDay - 1)
    else
      RangeQuery(start, end.value)
  }

  /** Any two datetimes on the same calendar day give the same single-day
      window, and it covers exactly the datetimes of that day. */
  lemma SingleDayWindow(s1: int, s2: int, t: int)
    requires Day(s1) == Day(s2)
    ensures CountRowsQuery(s1, None) == CountRowsQuery(s2, None)
    ensures var q := CountRowsQuery(s1, None);
      q.gte <= t <= q.lte <==> Day(t) == Day(s1)
  {
    var q := CountRowsQuery(s1, None);
    assert q.gte == Day(s1) * SecondsPerDay;
    assert CountRowsQuery(s2, None).gte == Day(s2) * SecondsPerDay;
  }
}
