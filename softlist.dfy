/** Software lists: the feature / part / software-entry data model and the
    list object whose content is loaded lazily, at most once, the first time
    one of its content getters is asked.

    The list file's parser is not part of this model. What a parse of the
    list file yields (its description, its error text and the entries it
    accepted) is the list's `source`; parsing builds the entry and part
    objects from it and copies each entry's shared features into each of its
    parts. */
module Softlist {
  import opened Optional

  // -----------------------------------------------------------------------
  // Enumerations and constants
  // -----------------------------------------------------------------------

  /** Emulation status of a software entry. */
  datatype Supported = Yes | Partial | No

  /** The numeric value of `SOFTWARE_SUPPORTED_YES`, `_PARTIAL` and `_NO`. */
  function SupportedCode(s: Supported): (code: nat)
    ensures code <= 2
    ensures s == Yes <==> code == 0
    ensures s == No <==> code == 2
  {
    match s
    case Yes => 0
    case Partial => 1
    case No => 2
  }

  /** The status a numeric code stands for; only 0, 1 and 2 name one. */
  function SupportedFromCode(code: nat): (s: Option<Supported>)
    ensures s.Some? <==> code <= 2
  {
    if code == 0 then Some(Yes)
    else if code == 1 then Some(Partial)
    else if code == 2 then Some(No)
    else None
  }

  /** The codes identify the statuses: decoding a status's code gives the
      status back, and every defined code is some status's code. */
  lemma SupportedCodesRoundTrip(s: Supported, code: nat)
    ensures SupportedFromCode(SupportedCode(s)) == Some(s)
    ensures SupportedFromCode(code).Some? ==> SupportedCode(SupportedFromCode(code).value) == code
  {
  }

  /** `softlist_type`: whether the list holds software for the system itself
      or for a compatible one. */
  datatype ListType = OriginalSystem | CompatibleSystem

  /** `software_compatibility`: the outcome of a compatibility test. */
  datatype Compatibility = IsCompatible | IsIncompatible | NotCompatible

  // -----------------------------------------------------------------------
  // Values
  // -----------------------------------------------------------------------

  /** `feature_list_item`: a name/value pair, fixed once made. A
      `simple_list` of them is a sequence. */
  datatype FeatureItem = FeatureItem(name: string, value: string)

  /** One ROM region or file entry of a part. The `rom_entry` type is not
      part of this model; these are the fields a software list gives it. */
  datatype RomEntry = RomEntry(name: string, hashdata: string, offset: nat, length: nat, flags: nat)

  /** A part as the list file declares it, before it is attached to its
      entry. */
  datatype PartDecl = PartDecl(
    name: string, interface: string, features: seq<FeatureItem>, romdata: seq<RomEntry>)

  /** A software entry as the list file declares it. */
  datatype InfoDecl = InfoDecl(
    shortname: string, longname: string, parentname: string, year: string,
    publisher: string, supported: Supported,
    otherInfo: seq<FeatureItem>, sharedInfo: seq<FeatureItem>, parts: seq<PartDecl>)

  /** What parsing the list file yields. */
  datatype ListSource = ListSource(description: string, errors: string, infos: seq<InfoDecl>)

  // -----------------------------------------------------------------------
  // The object graph
  // -----------------------------------------------------------------------

  /** `software_part`: one medium of a software entry. */
  class SoftwarePart {
    const info: SoftwareInfo
    const name: string
    const interface: string
    const featurelist: seq<FeatureItem>
    const romdata: seq<RomEntry>

    constructor (info: SoftwareInfo, name: string, interface: string,
                 featurelist: seq<FeatureItem>, romdata: seq<RomEntry>)
      ensures this.info == info && this.name == name && this.interface == interface
      ensures this.featurelist == featurelist && this.romdata == romdata
    {
      this.info := info;
      this.name := name;
      this.interface := interface;
      this.featurelist := featurelist;
      this.romdata := romdata;
    }

    /** `romdata(index)`: the `index`-th ROM entry, or none past the end. */
    function RomData(index: nat := 0): (entry: Option<RomEntry>)
      ensures entry.Some? <==> index < |romdata|
      ensures entry.Some? ==> entry.value == romdata[index]
    {
      if index < |romdata| then Some(romdata[index]) else None
    }
  }

  /** `software_info`: one software entry of a list. */
  class SoftwareInfo {
    const list: SoftwareList
    const shortname: string
    const longname: string
    const parentname: string
    const year: string
    const publisher: string
    const supported: Supported
    /** Features of the entry as a whole (developer, serial number, ...). */
    const otherInfo: seq<FeatureItem>
    /** Features every part of the entry inherits. */
    const sharedInfo: seq<FeatureItem>
    /** The entry's parts. The header exposes them only through a const
        getter; here the field is assignable, so a caller holding an entry
        could break the list's `Valid()`. Only `NewInfo` assigns it. */
    var parts: seq<SoftwarePart>

    constructor (list: SoftwareList, decl: InfoDecl)
      ensures this.list == list && Declares(decl) && parts == []
    {
      this.list := list;
      shortname := decl.shortname;
      longname := decl.longname;
      parentname := decl.parentname;
      year := decl.year;
      publisher := decl.publisher;
      supported := decl.supported;
      otherInfo := decl.otherInfo;
      sharedInfo := decl.sharedInfo;
      parts := [];
    }

    /** The entry's own fields are those of `decl`. */
    ghost predicate Declares(decl: InfoDecl) {
      shortname == decl.shortname && longname == decl.longname &&
      parentname == decl.parentname && year == decl.year &&
      publisher == decl.publisher && supported == decl.supported &&
      otherInfo == decl.otherInfo && sharedInfo == decl.sharedInfo
    }

    /** `supported()`: the status as its numeric code. */
    function SupportedValue(): (code: nat)
      ensures SupportedFromCode(code) == Some(supported)
    {
      SupportedCode(supported)
    }

    /** `first_part()`: the head of the part list, none when it is empty. */
    function FirstPart(): (p: Option<SoftwarePart>)
      reads this
      ensures p.Some? <==> |parts| > 0
      ensures p.Some? ==> p.value == parts[0]
    {
      if |parts| > 0 then Some(parts[0]) else None
    }
  }

  /** A loaded part carries its declared name, interface and ROM entries,
      points back to its entry, and its feature list holds exactly its own
      declared features and its entry's shared features. */
  ghost predicate PartBuilt(part: SoftwarePart, info: SoftwareInfo, decl: PartDecl) {
    part.info == info && part.name == decl.name && part.interface == decl.interface &&
    part.romdata == decl.romdata &&
    (forall f :: f in decl.features ==> f in part.featurelist) &&
    (forall f :: f in info.sharedInfo ==> f in part.featurelist) &&
    (forall f :: f in part.featurelist ==> f in decl.features || f in info.sharedInfo)
  }

  /** A loaded entry carries the declared fields, belongs to `list`, and holds
      one loaded part per declared part, in order. */
  ghost predicate InfoBuilt(info: SoftwareInfo, list: SoftwareList, decl: InfoDecl)
    reads info
  {
    info.list == list && info.Declares(decl) &&
    |info.parts| == |decl.parts| &&
    forall j :: 0 <= j < |decl.parts| ==> PartBuilt(info.parts[j], info, decl.parts[j])
  }

  /** Building an entry: the entry object first, then its parts, each
      inheriting the entry's shared features. */
  method NewInfo(list: SoftwareList, decl: InfoDecl) returns (info: SoftwareInfo)
    ensures fresh(info) && InfoBuilt(info, list, decl)
  {
    info := new SoftwareInfo(list, decl);
    var parts: seq<SoftwarePart> := [];
    var j := 0;
    while j < |decl.parts|
      invariant 0 <= j <= |decl.parts| && |parts| == j
      invariant forall k :: 0 <= k < j ==> PartBuilt(parts[k], info, decl.parts[k])
    {
      var pd := decl.parts[j];
      var part := new SoftwarePart(info, pd.name, pd.interface, info.sharedInfo + pd.features, pd.romdata);
      parts := parts + [part];
      j := j + 1;
    }
    info.parts := parts;
  }

  /** `software_list_device`: a named list, its configuration, and its
      content, loaded on first use. */
  class SoftwareList {
    var listName: string
    var listType: ListType
    var filter: Option<string>
    /** What parsing this list's file yields. */
    const source: ListSource

    var parsed: bool
    var description: string
    var errors: string
    var infolist: seq<SoftwareInfo>
    /** How many times the list file has been parsed. */
    ghost var parses: nat

    /** Before the parse nothing is loaded; after it the content is exactly
        what the list file yields. */
    ghost predicate Valid()
      reads this, infolist
    {
      (!parsed ==> parses == 0 && description == "" && errors == "" && infolist == []) &&
      (parsed ==>
        parses == 1 &&
        description == source.description && errors == source.errors &&
        |infolist| == |source.infos| &&
        forall i :: 0 <= i < |infolist| ==> InfoBuilt(infolist[i], this, source.infos[i]))
    }

    constructor (listName: string, listType: ListType, source: ListSource)
      ensures Valid() && !parsed
      ensures this.listName == listName && this.listType == listType
      ensures filter == None && this.source == source
    {
      this.listName := listName;
      this.listType := listType;
      filter := None;
      this.source := source;
      parsed := false;
      description := "";
      errors := "";
      infolist := [];
      parses := 0;
    }

    /** `static_set_type`: configure the list name and type. */
    method SetType(list: string, listType: ListType)
      requires Valid()
      modifies this`listName, this`listType
      ensures Valid() && listName == list && this.listType == listType
    {
      listName := list;
      this.listType := listType;
    }

    /** `static_set_filter`: configure the filter. */
    method SetFilter(filter: Option<string>)
      requires Valid()
      modifies this`filter
      ensures Valid() && this.filter == filter
    {
      this.filter := filter;
    }

    /** `parse()`: load the list file's content. */
    method Parse()
      requires Valid() && !parsed
      modifies this`parsed, this`description, this`errors, this`infolist, this`parses
      ensures Valid() && parsed
      ensures parses == old(parses) + 1
    {
      var infos: seq<SoftwareInfo> := [];
      var i := 0;
      while i < |source.infos|
        invariant 0 <= i <= |source.infos| && |infos| == i
        invariant forall k :: 0 <= k < i ==> InfoBuilt(infos[k], this, source.infos[k])
        invariant unchanged(this)
      {
        var info := NewInfo(this, source.infos[i]);
        infos := infos + [info];
        i := i + 1;
      }
      description := source.description;
      errors := source.errors;
      infolist := infos;
      parsed := true;
      parses := parses + 1;
    }

    /** Run the parse unless it has already run. */
    method EnsureParsed()
      requires Valid()
      modifies this`parsed, this`description, this`errors, this`infolist, this`parses
      ensures Valid() && parsed && parses == 1
      ensures old(parsed) ==> unchanged(this)
    {
      if !parsed {
        Parse();
      }
    }

    /** `description()`: the list's description, parsing first if needed. */
    method Description() returns (d: string)
      requires Valid()
      modifies this`parsed, this`description, this`errors, this`infolist, this`parses
      ensures Valid() && parsed && parses == 1
      ensures old(parsed) ==> unchanged(this)
      ensures d == source.description
    {
      EnsureParsed();
      d := description;
    }

    /** `valid()`: whether the loaded list holds any entry. */
    method IsValid() returns (b: bool)
      requires Valid()
      modifies this`parsed, this`description, this`errors, this`infolist, this`parses
      ensures Valid() && parsed && parses == 1
      ensures old(parsed) ==> unchanged(this)
      ensures b <==> |infolist| > 0
      ensures b <==> |source.infos| > 0
    {
      EnsureParsed();
      b := |infolist| > 0;
    }

    /** `errors_string()`: the errors the parse reported. */
    method ErrorsString() returns (e: string)
      requires Valid()
      modifies this`parsed, this`description, this`errors, this`infolist, this`parses
      ensures Valid() && parsed && parses == 1
      ensures old(parsed) ==> unchanged(this)
      ensures e == source.errors
    {
      EnsureParsed();
      e := errors;
    }

    /** `get_info()`: the loaded entries. */
    method GetInfo() returns (infos: seq<SoftwareInfo>)
      requires Valid()
      modifies this`parsed, this`description, this`errors, this`infolist, this`parses
      ensures Valid() && parsed && parses == 1
      ensures old(parsed) ==> unchanged(this)
      ensures infos == infolist && |infos| == |source.infos|
      ensures forall i :: 0 <= i < |infos| ==> InfoBuilt(infos[i], this, source.infos[i])
    {
      EnsureParsed();
      infos := infolist;
    }
  }

  /** The four content getters of a list. */
  datatype Getter = DescriptionGetter | ValidGetter | ErrorsGetter | InfoGetter

  /** How many of `calls` are `get_info()` calls. */
  function InfoCalls(calls: seq<Getter>): nat {
    if calls == [] then 0
    else InfoCalls(calls[..|calls| - 1]) + (if calls[|calls| - 1] == InfoGetter then 1 else 0)
  }

  /** Any run of content getters, in any order: the list file is parsed at
      most once (exactly once if the run is non-empty and the list was not
      yet loaded), a run on a loaded list changes nothing, the configuration
      is never touched, and every `get_info()` of the run returns the very
      entries the list ends up holding. `results[k]` is what the `k`-th
      `get_info()` of the run returned; there is one result per such call. */
  method RunGetters(list: SoftwareList, calls: seq<Getter>) returns (results: seq<seq<SoftwareInfo>>)
    requires list.Valid()
    modifies list`parsed, list`description, list`errors, list`infolist, list`parses
    ensures list.Valid()
    ensures list.parses == if old(list.parsed) || calls != [] then 1 else 0
    ensures old(list.parsed) || calls == [] ==> unchanged(list)
    ensures |results| == InfoCalls(calls)
    ensures forall k :: 0 <= k < |results| ==> results[k] == list.infolist
  {
    results := [];
    var i := 0;
    while i < |calls|
      invariant 0 <= i <= |calls|
      invariant list.Valid()
      invariant list.parses == if old(list.parsed) || i > 0 then 1 else 0
      invariant old(list.parsed) || i == 0 ==> unchanged(list)
      invariant results != [] ==> list.parsed
      invariant |results| == InfoCalls(calls[..i])
      invariant forall k :: 0 <= k < |results| ==> results[k] == list.infolist
    {
      match calls[i] {
        case DescriptionGetter =>
          var _ := list.Description();
        case ValidGetter =>
          var _ := list.IsValid();
        case ErrorsGetter =>
          var _ := list.ErrorsString();
        case InfoGetter =>
          var infos := list.GetInfo();
          results := results + [infos];
      }
      assert calls[..i + 1][..i] == calls[..i];
      i := i + 1;
    }
    assert calls[..i] == calls;
  }

  /** After loading, every shared feature of an entry is in each of its
      parts' feature lists, while an other-info feature reaches a part only
      if that part or the shared list declares it too. */
  lemma SharedFeaturesInherited(info: SoftwareInfo, list: SoftwareList, decl: InfoDecl, j: nat, f: FeatureItem)
    requires InfoBuilt(info, list, decl) && j < |info.parts|
    ensures f in info.sharedInfo ==> f in info.parts[j].featurelist
    ensures f in info.otherInfo && f !in info.sharedInfo && f !in decl.parts[j].features ==>
              f !in info.parts[j].featurelist
  {
  }
}
