/** Exposure/EPG/Request/FetchEpgList.swift: the endpoint, headers and query
    parameters of the request that lists channel EPGs. */
module Epg {
  import opened Wrappers

  /** One sort key and its direction. */
  datatype SortDescriptor = SortDescriptor(key: string, ascending: bool)

  datatype SortDescription = SortDescription(descriptors: Option<seq<SortDescriptor>>)

  datatype PageFilter = PageFilter(page: int, size: int)

  datatype PublishFilter = PublishFilter(onlyPublished: bool)

  datatype Environment = Environment(apiUrl: string)

  /** A query parameter value (`Any` in the source). */
  datatype QueryValue = BoolValue(b: bool) | IntValue(i: int) | TextValue(text: string)

  datatype FetchEpgList = FetchEpgList(environment: Environment, sortDescription: SortDescription,
                                       pageFilter: PageFilter, publishFilter: PublishFilter)

  const OnlyPublishedKey: string := "onlyPublished"
  const PageSizeKey: string := "pageSize"
  const PageNumberKey: string := "pageNumber"
  const SortKey: string := "sort"

  /** The entry a descriptor contributes to the sort string.  The conditional
      binds looser than `+`, so an ascending key contributes the empty string
      and a descending one its key with a leading "-". */
  function SortEntry(d: SortDescriptor): (entry: string)
    ensures d.ascending ==> entry == ""
    ensures !d.ascending ==> |entry| == |d.key| + 1 && entry[0] == '-' && entry[1..] == d.key
  {
    if d.ascending then "" else "-" + d.key
  }

  /** `joined(separator:)`. */
  function Join(parts: seq<string>, separator: char): string
    decreases |parts|
  {
    if |parts| == 0 then ""
    else if |parts| == 1 then parts[0]
    else parts[0] + [separator] + Join(parts[1..], separator)
  }

  /** Splitting at every separator, the inverse of `Join` for parts that do
      not contain the separator. */
  function Split(s: string, separator: char): (parts: seq<string>)
    ensures |parts| >= 1
    decreases |s|
  {
    if |s| == 0 then [""]
    else
      var rest := Split(s[1..], separator);
      if s[0] == separator then [""] + rest
      else [[s[0]] + rest[0]] + rest[1..]
  }

  /** How many times `c` occurs in `s`. */
  function Count(s: string, c: char): nat
    decreases |s|
  {
    if |s| == 0 then 0 else (if s[0] == c then 1 else 0) + Count(s[1..], c)
  }

  /** The sort string: one entry per descriptor, in order, separated by ",". */
  function SortString(descriptors: seq<SortDescriptor>): string {
    Join(seq(|descriptors|, i requires 0 <= i < |descriptors| => SortEntry(descriptors[i])), ',')
  }

  /** `queryParams`: the filters always appear, under their keys; `sort`
      appears exactly when there are descriptors, and nothing else does. */
  function QueryParams(request: FetchEpgList): (params: map<string, QueryValue>)
    ensures OnlyPublishedKey in params && PageNumberKey in params && PageSizeKey in params
    ensures params[OnlyPublishedKey] == BoolValue(request.publishFilter.onlyPublished)
    ensures params[PageNumberKey] == IntValue(request.pageFilter.page)
    ensures params[PageSizeKey] == IntValue(request.pageFilter.size)
    ensures SortKey in params <==> request.sortDescription.descriptors.Some?
    ensures params.Keys <= {OnlyPublishedKey, PageNumberKey, PageSizeKey, SortKey}
    ensures request.sortDescription.descriptors.Some? ==>
              params[SortKey] == TextValue(SortString(request.sortDescription.descriptors.value))
  {
    var params := map[OnlyPublishedKey := BoolValue(request.publishFilter.onlyPublished),
                      PageNumberKey := IntValue(request.pageFilter.page),
                      PageSizeKey := IntValue(request.pageFilter.size)];
    match request.sortDescription.descriptors
    case None => params
    case Some(sort) => params[SortKey := TextValue(SortString(sort))]
  }

  /** `parameters`: the query parameters. */
  function Parameters(request: FetchEpgList): (r: map<string, QueryValue>)
    ensures r == QueryParams(request)
  {
    QueryParams(request)
  }

  /** `headers`: none. */
  function Headers(request: FetchEpgList): (r: Option<map<string, string>>)
    ensures r.None?
  {
    None
  }

  /** `endpointUrl`: the asset listing under the environment's API URL. */
  function EndpointUrl(request: FetchEpgList): (r: string)
    ensures |r| == |request.environment.apiUrl| + |"/content/asset"|
    ensures r[..|request.environment.apiUrl|] == request.environment.apiUrl
    ensures r[|request.environment.apiUrl|..] == "/content/asset"
  {
    request.environment.apiUrl + "/content/asset"
  }

  /** A part without the separator splits to itself. */
  lemma {:induction false} SplitPlain(x: string, separator: char)
    requires separator !in x
    ensures Split(x, separator) == [x]
    decreases |x|
  {
    if |x| > 0 {
      SplitPlain(x[1..], separator);
      assert [x[0]] + x[1..] == x;
    }
  }

  /** Splitting `x`, a separator, then `rest` yields `x` first. */
  lemma {:induction false} SplitAfterPart(x: string, separator: char, rest: string)
    requires separator !in x
    ensures Split(x + [separator] + rest, separator) == [x] + Split(rest, separator)
    decreases |x|
  {
    var s := x + [separator] + rest;
    if |x| == 0 {
      assert s == [separator] + rest;
      assert s[1..] == rest;
    } else {
      assert s[0] == x[0];
      assert s[1..] == x[1..] + [separator] + rest;
      SplitAfterPart(x[1..], separator, rest);
      assert [x[0]] + x[1..] == x;
    }
  }

  /** Joining and splitting again gives back the parts. */
  lemma {:induction false} SplitJoin(parts: seq<string>, separator: char)
    requires |parts| >= 1
    requires forall i :: 0 <= i < |parts| ==> separator !in parts[i]
    ensures Split(Join(parts, separator), separator) == parts
    decreases |parts|
  {
    if |parts| == 1 {
      SplitPlain(parts[0], separator);
    } else {
      SplitJoin(parts[1..], separator);
      SplitAfterPart(parts[0], separator, Join(parts[1..], separator));
      assert [parts[0]] + parts[1..] == parts;
    }
  }

  lemma {:induction false} CountAppend(a: string, b: string, c: char)
    ensures Count(a + b, c) == Count(a, c) + Count(b, c)
    decreases |a|
  {
    if |a| > 0 {
      assert (a + b)[1..] == a[1..] + b;
      CountAppend(a[1..], b, c);
    } else {
      assert a + b == b;
    }
  }

  lemma {:induction false} CountAbsent(s: string, c: char)
    requires c !in s
    ensures Count(s, c) == 0
    decreases |s|
  {
    if |s| > 0 {
      CountAbsent(s[1..], c);
    }
  }

  /** n parts without the separator are joined with n - 1 separators. */
  lemma {:induction false} JoinCount(parts: seq<string>, separator: char)
    requires |parts| >= 1
    requires forall i :: 0 <= i < |parts| ==> separator !in parts[i]
    ensures Count(Join(parts, separator), separator) == |parts| - 1
    decreases |parts|
  {
    CountAbsent(parts[0], separator);
    if |parts| > 1 {
      JoinCount(parts[1..], separator);
      CountAppend(parts[0] + [separator], Join(parts[1..], separator), separator);
      CountAppend(parts[0], [separator], separator);
      assert [separator][1..] == [];
    }
  }

  /** For keys without commas the sort string lists one entry per descriptor,
      in order, with n - 1 commas for n descriptors. */
  lemma SortStringEntries(descriptors: seq<SortDescriptor>)
    requires |descriptors| >= 1
    requires forall i :: 0 <= i < |descriptors| ==> ',' !in descriptors[i].key
    ensures Split(SortString(descriptors), ',') == seq(|descriptors|, i requires 0 <= i < |descriptors| => SortEntry(descriptors[i]))
    ensures Count(SortString(descriptors), ',') == |descriptors| - 1
  {
    var entries := seq(|descriptors|, i requires 0 <= i < |descriptors| => SortEntry(descriptors[i]));
    forall i | 0 <= i < |entries| ensures ',' !in entries[i] {
      if !descriptors[i].ascending {
        assert entries[i] == ['-'] + descriptors[i].key;
      }
    }
    SplitJoin(entries, ',');
    JoinCount(entries, ',');
  }

  /** Two descending keys and an ascending one. */
  lemma SortStringExample()
    ensures SortString([SortDescriptor("startTime", false), SortDescriptor("title", true), SortDescriptor("id", false)])
              == "-startTime,,-id"
  {
    var ds := [SortDescriptor("startTime", false), SortDescriptor("title", true), SortDescriptor("id", false)];
    var entries := seq(|ds|, i requires 0 <= i < |ds| => SortEntry(ds[i]));
    assert "-" + "startTime" == "-startTime" && "-" + "id" == "-id";
    assert entries[0] == "-startTime" && entries[1] == "" && entries[2] == "-id";
    assert entries == ["-startTime", "", "-id"];
    assert Join(entries[2..], ',') == "-id";
    assert Join(entries[1..], ',') == "" + [','] + "-id";
  }
}
