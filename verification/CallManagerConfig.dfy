/** The configuration of the call manager: two sets of applications, loaded once from a JSON document. */
module CallManagerConfigs {
  import opened TelephonyBase

  const MAX_FEATURE_LIST_SIZE := 100

  // A value of the parsed document, as far as the configuration looks at it.
  datatype Item = Text(text: string) | NoText
  datatype Value = Array(items: seq<Item>) | NoArray

  /** The two values that are looked up in the document's root; None when the name is absent. */
  datatype Document = Document(hangUp: Option<Value>, convert: Option<Value>)

  function ParseString(item: Item): string {
    if item.Text? then item.text else ""
  }

  // The items that are considered: none unless the value is an array of 1 to 100 items.
  function Listed(value: Option<Value>): seq<Item> {
    if value.Some? && value.value.Array? && |value.value.items| <= MAX_FEATURE_LIST_SIZE then value.value.items
    else []
  }

  /** The applications that a value names. */
  function Features(value: Option<Value>): set<string> {
    set i | 0 <= i < |Listed(value)| && ParseString(Listed(value)[i]) != "" :: ParseString(Listed(value)[i])
  }

  function FeaturesUpTo(items: seq<Item>, n: nat): set<string>
    requires n <= |items|
  {
    set i | 0 <= i < n && ParseString(items[i]) != "" :: ParseString(items[i])
  }

  function Insert(features: set<string>, item: Item): set<string> {
    if ParseString(item) == "" then features else features + {ParseString(item)}
  }

  lemma FeaturesGrow(items: seq<Item>, n: nat)
    requires n < |items|
    ensures FeaturesUpTo(items, n + 1) == Insert(FeaturesUpTo(items, n), items[n])
  {
  }

  lemma AllFeatures(value: Option<Value>)
    ensures Features(value) == FeaturesUpTo(Listed(value), |Listed(value)|)
  {
  }

  class CallManagerConfig {
    var hangUpList: set<string>
    var convertList: set<string>
    var isInit: bool

    constructor ()
      ensures hangUpList == {} && convertList == {} && !isInit
    {
      hangUpList, convertList, isInit := {}, {}, false;
    }

    /** Nothing is stored by a failed load; a successful one stores the two parses, and only the first one does. */
    method Init(loaded: Option<Document>)
      modifies this
      ensures old(isInit) ==> unchanged(this)
      ensures !old(isInit) ==> isInit == loaded.Some?
      ensures !old(isInit) && loaded.Some? ==>
        hangUpList == Features(loaded.value.hangUp) && convertList == Features(loaded.value.convert)
      ensures !old(isInit) && loaded.None? ==> hangUpList == {} && convertList == {}
    {
      if isInit {
        return;
      }
      hangUpList := {};
      convertList := {};
      var parsed := ParserConfigJson(loaded);
      if !parsed {
        return;
      }
      isInit := true;
    }

    method ParserConfigJson(loaded: Option<Document>) returns (parsed: bool)
      modifies this`hangUpList, this`convertList
      ensures parsed == loaded.Some?
      ensures parsed ==> hangUpList == old(hangUpList) + Features(loaded.value.hangUp)
      ensures parsed ==> convertList == old(convertList) + Features(loaded.value.convert)
      ensures !parsed ==> hangUpList == old(hangUpList) && convertList == old(convertList)
    {
      if loaded.None? {
        return false;
      }
      hangUpList := ParseFeatureList(loaded.value.hangUp, hangUpList);
      convertList := ParseFeatureList(loaded.value.convert, convertList);
      return true;
    }

    static method ParseFeatureList(value: Option<Value>, featureList: set<string>) returns (r: set<string>)
      ensures r == featureList + Features(value)
      ensures value.None? || value.value.NoArray? || |value.value.items| > 100 ==> r == featureList
      ensures value.Some? && value.value.Array? && |value.value.items| <= 100 ==>
        forall name :: name in r <==> name in featureList || (name != "" && Text(name) in value.value.items)
    {
      r := featureList;
      AllFeatures(value);
      if value.Some? && value.value.Array? {
        var items := value.value.items;
        if |items| <= 0 || |items| > MAX_FEATURE_LIST_SIZE {
          return;
        }
        for i := 0 to |items|
          invariant r == featureList + FeaturesUpTo(items, i)
        {
          FeaturesGrow(items, i);
          var bundleName := ParseString(items[i]);
          if bundleName != "" {
            r := r + {bundleName};
          }
        }
      }
    }

    /** An empty key stands for an application that could not be identified. */
    method ShouldHangUpCellularCallBeforeAnswer(loaded: Option<Document>, matchKey: string) returns (r: bool)
      modifies this
      ensures old(isInit) ==> unchanged(this)
      ensures !old(isInit) ==> isInit == loaded.Some?
      ensures r == (matchKey != "" && matchKey in hangUpList)
      ensures !old(isInit) ==> r == (loaded.Some? && matchKey != "" && matchKey in Features(loaded.value.hangUp))
    {
      Init(loaded);
      if matchKey == "" {
        return false;
      }
      return matchKey in hangUpList;
    }

    method ShouldConvertUsernameToPhoneNum(loaded: Option<Document>, matchKey: string) returns (r: bool)
      modifies this
      ensures old(isInit) ==> unchanged(this)
      ensures !old(isInit) ==> isInit == loaded.Some?
      ensures r == (matchKey != "" && matchKey in convertList)
      ensures !old(isInit) ==> r == (loaded.Some? && matchKey != "" && matchKey in Features(loaded.value.convert))
    {
      Init(loaded);
      if matchKey == "" {
        return false;
      }
      return matchKey in convertList;
    }
  }
}
