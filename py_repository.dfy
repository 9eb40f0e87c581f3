/**
 * The channel repository shared by the two Python analyzers, cli.py and
 * main.py, stated on values: a channel record and its score, the keyword
 * merge of `WiFiChannel.update`, the argument binding of the `WiFiChannel`
 * constructor, the repository as the dictionary's values in insertion order
 * plus the history log, and the rankings computed over it. The classes in
 * CliAnalyzer and MainAnalyzer are proved against these functions.
 */
module PyRepository {
  import opened Wrappers
  import opened Ranking

  /** The three frequency bands, in GHz, that the analyzers accept. */
  datatype Band = Band24 | Band5 | Band6

  /** The dictionary key `(channelNumber, frequencyBand)`. */
  datatype Key = Key(channelNumber: int, frequencyBand: Band)

  /** The attributes of one `WiFiChannel` object. */
  datatype Record = Record(
    channelNumber: int,
    usage: int,
    interference: int,
    noise: int,
    transmissionPower: int,
    channelWidth: int,
    frequencyBand: Band)

  function KeyOf(r: Record): Key
  {
    Key(r.channelNumber, r.frequencyBand)
  }

  // ---------------------------------------------------------------------
  // Scoring

  /** 1 for a 20 MHz channel, 1.5 for 40 MHz, 2 for every other width. */
  function WidthFactor(width: int): real
  {
    if width == 20 then 1.0 else if width == 40 then 1.5 else 2.0
  }

  /** Transmission power less the three penalties, before the width factor. */
  function Base(r: Record): int
  {
    -r.usage - r.interference - r.noise + r.transmissionPower
  }

  /** `WiFiChannel.score`: higher is better. */
  function Score(r: Record): real
  {
    (Base(r) as real) * WidthFactor(r.channelWidth)
  }

  /** The sort key that orders records by descending score. */
  function NegScore(r: Record): real
  {
    -Score(r)
  }

  /** The width factor scales the whole expression, penalties included. */
  lemma WidthScalesWholeScore(r: Record)
    ensures Score(r) == WidthFactor(r.channelWidth) * Score(r.(channelWidth := 20))
    ensures r.channelWidth == 40 ==> Score(r) == 1.5 * Score(r.(channelWidth := 20))
    ensures r.channelWidth != 20 && r.channelWidth != 40 ==> Score(r) == 2.0 * Score(r.(channelWidth := 20))
  {
  }

  /** More usage, interference or noise never raises the score; more power never lowers it. */
  lemma ScoreMonotone(r: Record, r': Record)
    requires r'.channelWidth == r.channelWidth
    requires r'.usage >= r.usage && r'.interference >= r.interference && r'.noise >= r.noise
    requires r'.transmissionPower <= r.transmissionPower
    ensures Score(r') <= Score(r)
  {
    assert Base(r') <= Base(r);
    var f := WidthFactor(r.channelWidth);
    assert f > 0.0;
    assert (Base(r') as real) * f <= (Base(r) as real) * f by {
      assert ((Base(r) - Base(r')) as real) * f >= 0.0;
    }
  }

  // ---------------------------------------------------------------------
  // Keyword arguments

  /** The attribute names of one analyzer: cli.py spells them in camelCase, main.py in snake_case. */
  datatype Names = Names(
    channelNumber: string,
    usage: string,
    interference: string,
    noise: string,
    transmissionPower: string,
    channelWidth: string,
    frequencyBand: string)

  const CamelCase := Names("channelNumber", "usage", "interference", "noise",
                           "transmissionPower", "channelWidth", "frequencyBand")

  const SnakeCase := Names("channel_number", "usage", "interference", "noise",
                           "transmission_power", "channel_width", "frequency_band")

  /** The keyword parameters of the constructor that add_or_update_channel fills from its keyword arguments. */
  function Measurements(names: Names): set<string>
  {
    {names.usage, names.interference, names.noise, names.transmissionPower, names.channelWidth}
  }

  /** The data attributes of a channel, the names for which `hasattr` holds. */
  function Attributes(names: Names): set<string>
  {
    Measurements(names) + {names.channelNumber, names.frequencyBand}
  }

  function Pick(kwArgs: map<string, int>, name: string, current: int): int
  {
    if name in kwArgs then kwArgs[name] else current
  }

  /** `WiFiChannel.update`: every supplied integer attribute is overwritten, every other name is ignored. */
  function Merged(r: Record, names: Names, kwArgs: map<string, int>): Record
  {
    Record(
      Pick(kwArgs, names.channelNumber, r.channelNumber),
      Pick(kwArgs, names.usage, r.usage),
      Pick(kwArgs, names.interference, r.interference),
      Pick(kwArgs, names.noise, r.noise),
      Pick(kwArgs, names.transmissionPower, r.transmissionPower),
      Pick(kwArgs, names.channelWidth, r.channelWidth),
      r.frequencyBand)
  }

  /** An update with no keyword arguments changes nothing. */
  lemma MergedNothing(r: Record, names: Names)
    ensures Merged(r, names, map[]) == r
  {
  }

  /** A name that is not an attribute of the channel has no effect. */
  lemma MergedIgnoresUnknown(r: Record, names: Names, kwArgs: map<string, int>, name: string, v: int)
    requires name !in Attributes(names)
    ensures Merged(r, names, kwArgs[name := v]) == Merged(r, names, kwArgs)
  {
  }

  /** Two updates in a row equal one update with both argument sets, the later winning. */
  lemma MergedComposes(r: Record, names: Names, first: map<string, int>, second: map<string, int>)
    ensures Merged(Merged(r, names, first), names, second) == Merged(r, names, first + second)
  {
  }

  /** Repeating an update changes nothing more. */
  lemma MergedIdempotent(r: Record, names: Names, kwArgs: map<string, int>)
    ensures Merged(Merged(r, names, kwArgs), names, kwArgs) == Merged(r, names, kwArgs)
  {
  }

  /** Without a new channel number the merged record keeps its dictionary key. */
  lemma MergedKeepsKey(r: Record, names: Names, kwArgs: map<string, int>)
    requires names.channelNumber !in kwArgs
    ensures KeyOf(Merged(r, names, kwArgs)) == KeyOf(r)
  {
  }

  /** The `TypeError`s Python raises while binding the arguments of a call. */
  datatype CallError = MultipleValues | UnexpectedKeyword | MissingArgument

  /** Keyword arguments that collide with a named parameter of add_or_update_channel. */
  predicate BindsTwice(names: Names, kwArgs: map<string, int>)
  {
    "self" in kwArgs || names.channelNumber in kwArgs || names.frequencyBand in kwArgs
  }

  /**
   * `WiFiChannel(channelNumber, frequencyBand=frequencyBand, **kwArgs)`: an unknown
   * keyword is reported first, then a missing one.
   */
  function Constructed(names: Names, channelNumber: int, band: Band, kwArgs: map<string, int>): (r: Result<Record, CallError>)
    ensures r.Success? <==> kwArgs.Keys == Measurements(names)
    ensures r.Success? ==> KeyOf(r.value) == Key(channelNumber, band)
  {
    if !(kwArgs.Keys <= Measurements(names)) then Failure(UnexpectedKeyword)
    else if kwArgs.Keys != Measurements(names) then Failure(MissingArgument)
    else Success(Record(channelNumber, kwArgs[names.usage], kwArgs[names.interference], kwArgs[names.noise],
                        kwArgs[names.transmissionPower], kwArgs[names.channelWidth], band))
  }

  // ---------------------------------------------------------------------
  // History messages

  function DigitChar(d: nat): char
    requires d < 10
  {
    "0123456789"[d]
  }

  /** Decimal text of a natural number. */
  function NatText(n: nat): string
    decreases n
  {
    if n < 10 then [DigitChar(n)] else NatText(n / 10) + [DigitChar(n % 10)]
  }

  /** Python's `str` of an integer. */
  function IntText(n: int): string
  {
    if n < 0 then "-" + NatText(-n) else NatText(n)
  }

  /** The band as the command-line menus pass it, a float read by `float(...)`. */
  function BandText(b: Band): string
  {
    match b
    case Band24 => "2.4"
    case Band5 => "5.0"
    case Band6 => "6.0"
  }

  /** `f"{verb} Channel {channelNumber} on {frequencyBand}GHz."` */
  function Message(verb: string, channelNumber: int, band: Band): string
  {
    verb + " Channel " + IntText(channelNumber) + " on " + BandText(band) + "GHz."
  }

  lemma MessageExample()
    ensures Message("Added", 36, Band5) == "Added Channel 36 on 5.0GHz."
  {
    assert NatText(36) == "36" by {
      assert NatText(3) == "3";
    }
  }

  // ---------------------------------------------------------------------
  // The repository

  /** The dictionary's values in insertion order, and the history log. */
  datatype Repo = Repo(contents: seq<Record>, history: seq<string>)

  function KeysOf(s: seq<Record>): seq<Key>
  {
    seq(|s|, i requires 0 <= i < |s| => KeyOf(s[i]))
  }

  ghost predicate KeysDistinct(s: seq<Record>)
  {
    forall i, j :: 0 <= i < j < |s| ==> KeyOf(s[i]) != KeyOf(s[j])
  }

  /** The position of key in keys, or |keys| when it is absent. */
  function IndexOf(keys: seq<Key>, key: Key): (i: nat)
    ensures i <= |keys|
    ensures i < |keys| ==> keys[i] == key
    ensures forall j :: 0 <= j < i ==> keys[j] != key
  {
    if keys == [] then 0
    else if keys[0] == key then 0
    else 1 + IndexOf(keys[1..], key)
  }

  /** The position of the record with that key, or |s| when there is none. */
  function Position(s: seq<Record>, key: Key): (i: nat)
    ensures i <= |s|
    ensures i < |s| ==> KeyOf(s[i]) == key
    ensures forall j :: 0 <= j < i ==> KeyOf(s[j]) != key
  {
    if s == [] then 0
    else if KeyOf(s[0]) == key then 0
    else 1 + Position(s[1..], key)
  }

  /** Position finds a record exactly when the key is among the keys. */
  lemma PositionFound(s: seq<Record>, key: Key)
    ensures Position(s, key) < |s| <==> key in KeysOf(s)
  {
    var i := Position(s, key);
    if key in KeysOf(s) {
      var k :| 0 <= k < |s| && KeysOf(s)[k] == key;
      assert KeyOf(s[k]) == key;
    }
    if i < |s| {
      assert KeysOf(s)[i] == key;
    }
  }

  /** Dropping a record keeps the remaining keys distinct. */
  lemma DropKeepsKeysDistinct(s: seq<Record>, i: nat)
    requires KeysDistinct(s)
    requires i < |s|
    ensures KeysDistinct(s[..i] + s[i + 1..])
  {
    var rest := s[..i] + s[i + 1..];
    forall j, k | 0 <= j < k < |rest| ensures KeyOf(rest[j]) != KeyOf(rest[k]) {
      assert rest[j] == s[if j < i then j else j + 1];
      assert rest[k] == s[if k < i then k else k + 1];
    }
  }

  /** Dropping a record drops its key at the same position. */
  lemma KeysOfDrop(s: seq<Record>, i: nat)
    requires i < |s|
    ensures KeysOf(s[..i] + s[i + 1..]) == KeysOf(s)[..i] + KeysOf(s)[i + 1..]
  {
  }

  /**
   * A Python dictionary keyed by channel: `order` lists its keys in insertion
   * order, `data` maps each key to that channel's attributes, and `contents`
   * lists those attributes in the same order. Stated one entry at a time,
   * from the most recently inserted.
   */
  ghost predicate Linked(order: seq<Key>, data: map<Key, Record>, contents: seq<Record>)
    decreases |contents|
  {
    if contents == [] then order == [] && data == map[]
    else
      var n := |contents| - 1;
      && |order| == |contents|
      && order[n] == KeyOf(contents[n])
      && order[n] in data && data[order[n]] == contents[n]
      && Linked(order[..n], data - {order[n]}, contents[..n])
  }

  /** The same relation stated over all positions at once. */
  ghost predicate Tabulated(order: seq<Key>, data: map<Key, Record>, contents: seq<Record>)
  {
    && order == KeysOf(contents)
    && KeysDistinct(contents)
    && (forall k :: k in data <==> k in order)
    && (forall i :: 0 <= i < |order| ==> data[order[i]] == contents[i])
  }

  /** The recursive statement of the dictionary relation implies the tabulated one. */
  lemma {:induction false} LinkedToTabulated(order: seq<Key>, data: map<Key, Record>, contents: seq<Record>)
    requires Linked(order, data, contents)
    ensures Tabulated(order, data, contents)
    decreases |contents|
  {
    if contents != [] {
      var n := |contents| - 1;
      var order', data', contents' := order[..n], data - {order[n]}, contents[..n];
      LinkedToTabulated(order', data', contents');
      assert KeysOf(contents) == KeysOf(contents') + [KeyOf(contents[n])];
      assert order == order' + [order[n]];
      forall i, j | 0 <= i < j < |contents| ensures KeyOf(contents[i]) != KeyOf(contents[j]) {
        if j == n {
          assert KeyOf(contents[i]) == order'[i];
          assert order'[i] in data';
        } else {
          assert contents[i] == contents'[i] && contents[j] == contents'[j];
        }
      }
      forall i | 0 <= i < |order| ensures data[order[i]] == contents[i] {
        if i < n {
          assert order[i] == order'[i] && order'[i] in data';
        }
      }
    }
  }

  /** The tabulated statement of the dictionary relation implies the recursive one. */
  lemma {:induction false} TabulatedToLinked(order: seq<Key>, data: map<Key, Record>, contents: seq<Record>)
    requires Tabulated(order, data, contents)
    ensures Linked(order, data, contents)
    decreases |contents|
  {
    if contents == [] {
      assert data == map[] by {
        forall k ensures k !in data { }
      }
    } else {
      var n := |contents| - 1;
      var order', data', contents' := order[..n], data - {order[n]}, contents[..n];
      assert order' == KeysOf(contents');
      forall i | 0 <= i < n ensures order[i] != order[n] {
        assert order[i] == KeyOf(contents[i]) && order[n] == KeyOf(contents[n]);
      }
      forall k ensures k in data' <==> k in order' {
        assert order == order' + [order[n]];
      }
      forall i | 0 <= i < |order'| ensures data'[order'[i]] == contents'[i] {
        assert order'[i] == order[i];
      }
      TabulatedToLinked(order', data', contents');
    }
  }

  /** A present key is found in the insertion order, an absent one is not. */
  lemma LinkedIndex(order: seq<Key>, data: map<Key, Record>, contents: seq<Record>, key: Key)
    requires Linked(order, data, contents)
    ensures IndexOf(order, key) == Position(contents, key)
    ensures key in data <==> IndexOf(order, key) < |order|
    ensures key in data ==> KeyOf(data[key]) == key && contents[IndexOf(order, key)] == data[key]
  {
    LinkedToTabulated(order, data, contents);
  }

  /** The records of the dictionary, looked up through the insertion order. */
  lemma LinkedLookup(order: seq<Key>, data: map<Key, Record>, contents: seq<Record>)
    requires Linked(order, data, contents)
    ensures |order| == |contents|
    ensures forall i :: 0 <= i < |order| ==> order[i] in data && data[order[i]] == contents[i]
    ensures forall k :: k in data <==> k in order
    ensures order == KeysOf(contents) && KeysDistinct(contents)
  {
    LinkedToTabulated(order, data, contents);
  }

  /** Replacing the record of a key, keeping the key, as `update` does in place. */
  lemma TabulatedReplace(order: seq<Key>, data: map<Key, Record>, contents: seq<Record>, i: nat, r: Record)
    requires Tabulated(order, data, contents)
    requires i < |order| && KeyOf(r) == order[i]
    ensures Tabulated(order, data[order[i] := r], contents[i := r])
  {
    var contents' := contents[i := r];
    assert KeysOf(contents') == order;
    forall a, b | 0 <= a < b < |contents'| ensures KeyOf(contents'[a]) != KeyOf(contents'[b]) {
      assert KeyOf(contents'[a]) == order[a] && KeyOf(contents'[b]) == order[b];
      assert KeyOf(contents[a]) == order[a] && KeyOf(contents[b]) == order[b];
    }
    forall j | 0 <= j < |order| ensures data[order[i] := r][order[j]] == contents'[j] {
      if j != i {
        assert KeyOf(contents[j]) != KeyOf(contents[i]) by {
          if j < i { } else { }
        }
      }
    }
  }

  /** The recursive relation survives an in-place replacement that keeps the key. */
  lemma LinkedReplace(order: seq<Key>, data: map<Key, Record>, contents: seq<Record>, i: nat, r: Record)
    requires Linked(order, data, contents)
    requires i < |order| && KeyOf(r) == order[i]
    ensures Linked(order, data[order[i] := r], contents[i := r])
  {
    LinkedToTabulated(order, data, contents);
    TabulatedReplace(order, data, contents, i, r);
    TabulatedToLinked(order, data[order[i] := r], contents[i := r]);
  }

  /** Inserting a new key, which Python places last in the iteration order. */
  lemma TabulatedAppend(order: seq<Key>, data: map<Key, Record>, contents: seq<Record>, r: Record)
    requires Tabulated(order, data, contents)
    requires KeyOf(r) !in data
    ensures Tabulated(order + [KeyOf(r)], data[KeyOf(r) := r], contents + [r])
  {
    var contents' := contents + [r];
    assert KeysOf(contents') == order + [KeyOf(r)];
    forall a, b | 0 <= a < b < |contents'| ensures KeyOf(contents'[a]) != KeyOf(contents'[b]) {
      if b == |contents| {
        assert KeyOf(contents'[a]) == order[a];
      }
    }
  }

  /** The recursive relation survives inserting a new key last. */
  lemma LinkedAppend(order: seq<Key>, data: map<Key, Record>, contents: seq<Record>, r: Record)
    requires Linked(order, data, contents)
    requires KeyOf(r) !in data
    ensures Linked(order + [KeyOf(r)], data[KeyOf(r) := r], contents + [r])
  {
    LinkedToTabulated(order, data, contents);
    TabulatedAppend(order, data, contents, r);
    TabulatedToLinked(order + [KeyOf(r)], data[KeyOf(r) := r], contents + [r]);
  }

  /** Deleting a key drops it, and its record, from the iteration order. */
  lemma TabulatedDrop(order: seq<Key>, data: map<Key, Record>, contents: seq<Record>, i: nat)
    requires Tabulated(order, data, contents)
    requires i < |order|
    ensures Tabulated(order[..i] + order[i + 1..], data - {order[i]}, contents[..i] + contents[i + 1..])
  {
    DropKeepsKeysDistinct(contents, i);
    KeysOfDrop(contents, i);
    assert forall a, b :: 0 <= a < b < |order| ==> order[a] != order[b] by {
      forall a, b | 0 <= a < b < |order| ensures order[a] != order[b] {
        assert order[a] == KeyOf(contents[a]) && order[b] == KeyOf(contents[b]);
      }
    }
    DropDistinct(order, i);
    var order' := order[..i] + order[i + 1..];
    forall j | 0 <= j < |order'| ensures (data - {order[i]})[order'[j]] == (contents[..i] + contents[i + 1..])[j] {
      var j' := if j < i then j else j + 1;
      assert order'[j] == order[j'];
    }
  }

  /** The recursive relation survives deleting a key. */
  lemma LinkedDrop(order: seq<Key>, data: map<Key, Record>, contents: seq<Record>, i: nat)
    requires Linked(order, data, contents)
    requires i < |order|
    ensures Linked(order[..i] + order[i + 1..], data - {order[i]}, contents[..i] + contents[i + 1..])
  {
    LinkedToTabulated(order, data, contents);
    TabulatedDrop(order, data, contents, i);
    TabulatedToLinked(order[..i] + order[i + 1..], data - {order[i]}, contents[..i] + contents[i + 1..]);
  }

  /** The new repository and what the call returned or raised. */
  datatype Step = Step(repo: Repo, outcome: Outcome<CallError>)

  /** `add_or_update_channel`: merge into an existing channel, or construct and append a new one. */
  function AddOrUpdate(repo: Repo, names: Names, channelNumber: int, band: Band, kwArgs: map<string, int>): Step
  {
    var i := Position(repo.contents, Key(channelNumber, band));
    if BindsTwice(names, kwArgs) then Step(repo, Fail(MultipleValues))
    else if i < |repo.contents| then
      Step(Repo(repo.contents[i := Merged(repo.contents[i], names, kwArgs)],
                repo.history + [Message("Updated", channelNumber, band)]),
           Pass)
    else
      match Constructed(names, channelNumber, band, kwArgs)
      case Failure(e) => Step(repo, Fail(e))
      case Success(r) => Step(Repo(repo.contents + [r], repo.history + [Message("Added", channelNumber, band)]), Pass)
  }

  /** `remove_channel`: delete a present key and log it; an absent key changes nothing. */
  function Remove(repo: Repo, channelNumber: int, band: Band): Repo
  {
    var i := Position(repo.contents, Key(channelNumber, band));
    if i < |repo.contents| then
      Repo(repo.contents[..i] + repo.contents[i + 1..], repo.history + [Message("Removed", channelNumber, band)])
    else repo
  }

  /** An argument that names a parameter of the call a second time is refused before anything changes. */
  lemma AddOrUpdateBindsTwice(repo: Repo, names: Names, channelNumber: int, band: Band, kwArgs: map<string, int>)
    requires BindsTwice(names, kwArgs)
    ensures AddOrUpdate(repo, names, channelNumber, band, kwArgs) == Step(repo, Fail(MultipleValues))
  {
  }

  /** On a present key: same keys, only that channel merged, "Updated ..." appended. */
  lemma AddOrUpdateExisting(repo: Repo, names: Names, channelNumber: int, band: Band, kwArgs: map<string, int>)
    requires KeysDistinct(repo.contents)
    requires !BindsTwice(names, kwArgs)
    requires Key(channelNumber, band) in KeysOf(repo.contents)
    ensures var step := AddOrUpdate(repo, names, channelNumber, band, kwArgs);
      && step.outcome == Pass
      && KeysOf(step.repo.contents) == KeysOf(repo.contents)
      && (forall j :: 0 <= j < |repo.contents| ==>
            step.repo.contents[j] == if KeyOf(repo.contents[j]) == Key(channelNumber, band)
                                     then Merged(repo.contents[j], names, kwArgs)
                                     else repo.contents[j])
      && step.repo.history == repo.history + [Message("Updated", channelNumber, band)]
  {
    var c := repo.contents;
    var key := Key(channelNumber, band);
    var i := Position(c, key);
    assert i < |c| by {
      var k :| 0 <= k < |c| && KeysOf(c)[k] == key;
    }
    var c' := c[i := Merged(c[i], names, kwArgs)];
    MergedKeepsKey(c[i], names, kwArgs);
    assert KeysOf(c') == KeysOf(c);
  }

  /** On an absent key: either exactly one new record with that key is appended with "Added ...", or nothing changes. */
  lemma AddOrUpdateAbsent(repo: Repo, names: Names, channelNumber: int, band: Band, kwArgs: map<string, int>)
    requires !BindsTwice(names, kwArgs)
    requires Key(channelNumber, band) !in KeysOf(repo.contents)
    ensures var step := AddOrUpdate(repo, names, channelNumber, band, kwArgs);
      if kwArgs.Keys == Measurements(names) then
        && step.outcome == Pass
        && step.repo.contents == repo.contents + [Record(channelNumber, kwArgs[names.usage], kwArgs[names.interference],
                                                         kwArgs[names.noise], kwArgs[names.transmissionPower],
                                                         kwArgs[names.channelWidth], band)]
        && step.repo.history == repo.history + [Message("Added", channelNumber, band)]
      else
        step.outcome.Fail? && step.repo == repo
  {
    PositionFound(repo.contents, Key(channelNumber, band));
  }

  /** Removing an absent key leaves the channels and the history as they were. */
  lemma RemoveAbsent(repo: Repo, channelNumber: int, band: Band)
    requires Key(channelNumber, band) !in KeysOf(repo.contents)
    ensures Remove(repo, channelNumber, band) == repo
  {
    PositionFound(repo.contents, Key(channelNumber, band));
  }

  /** Dropping the record at i leaves exactly the records with another key. */
  lemma DropMembers(c: seq<Record>, i: nat)
    requires KeysDistinct(c)
    requires i < |c|
    ensures forall r :: r in c[..i] + c[i + 1..] <==> r in c && KeyOf(r) != KeyOf(c[i])
  {
    var rest := c[..i] + c[i + 1..];
    forall r | r in rest ensures r in c && KeyOf(r) != KeyOf(c[i]) {
      var k :| 0 <= k < |rest| && rest[k] == r;
      if k < i { assert r == c[k]; } else { assert r == c[k + 1]; }
    }
    forall r | r in c && KeyOf(r) != KeyOf(c[i]) ensures r in rest {
      var k :| 0 <= k < |c| && c[k] == r;
      if k < i { assert rest[k] == r; } else { assert rest[k - 1] == r; }
    }
  }

  /** Removing a present key drops exactly that record, keeps the others in order, and logs "Removed ...". */
  lemma RemovePresent(repo: Repo, channelNumber: int, band: Band)
    requires KeysDistinct(repo.contents)
    requires Key(channelNumber, band) in KeysOf(repo.contents)
    ensures var after := Remove(repo, channelNumber, band);
      && |after.contents| == |repo.contents| - 1
      && (forall r :: r in after.contents <==> r in repo.contents && KeyOf(r) != Key(channelNumber, band))
      && (exists i :: 0 <= i < |repo.contents| && after.contents == repo.contents[..i] + repo.contents[i + 1..])
      && after.history == repo.history + [Message("Removed", channelNumber, band)]
  {
    var c := repo.contents;
    var i := Position(c, Key(channelNumber, band));
    assert i < |c| by {
      var k :| 0 <= k < |c| && KeysOf(c)[k] == Key(channelNumber, band);
    }
    DropMembers(c, i);
  }

  /** Both mutations keep the dictionary's keys distinct. */
  lemma {:induction false} MutationsKeepKeysDistinct(repo: Repo, names: Names, channelNumber: int, band: Band, kwArgs: map<string, int>)
    requires KeysDistinct(repo.contents)
    ensures KeysDistinct(AddOrUpdate(repo, names, channelNumber, band, kwArgs).repo.contents)
    ensures KeysDistinct(Remove(repo, channelNumber, band).contents)
  {
    var c := repo.contents;
    var key := Key(channelNumber, band);
    var i := Position(c, key);
    if !BindsTwice(names, kwArgs) {
      if i < |c| {
        PositionFound(c, key);
        AddOrUpdateExisting(repo, names, channelNumber, band, kwArgs);
        var c' := AddOrUpdate(repo, names, channelNumber, band, kwArgs).repo.contents;
        forall j, k | 0 <= j < k < |c'| ensures KeyOf(c'[j]) != KeyOf(c'[k]) {
          assert KeysOf(c')[j] == KeysOf(c)[j] && KeysOf(c')[k] == KeysOf(c)[k];
        }
      } else if Constructed(names, channelNumber, band, kwArgs).Success? {
        var c' := AddOrUpdate(repo, names, channelNumber, band, kwArgs).repo.contents;
        forall j, k | 0 <= j < k < |c'| ensures KeyOf(c'[j]) != KeyOf(c'[k]) {
          if k == |c| {
            assert KeysOf(c)[j] == KeyOf(c'[j]);
          }
        }
      }
    }
    if i < |c| {
      var c' := Remove(repo, channelNumber, band).contents;
      forall j, k | 0 <= j < k < |c'| ensures KeyOf(c'[j]) != KeyOf(c'[k]) {
        var j' := if j < i then j else j + 1;
        var k' := if k < i then k else k + 1;
        assert c'[j] == c[j'] && c'[k] == c[k'];
      }
    }
  }

  /** The history only grows, by at most one entry, and earlier entries never change. */
  lemma HistoryAppendOnly(repo: Repo, names: Names, channelNumber: int, band: Band, kwArgs: map<string, int>)
    ensures var h := AddOrUpdate(repo, names, channelNumber, band, kwArgs).repo.history;
      |repo.history| <= |h| <= |repo.history| + 1 && h[..|repo.history|] == repo.history
    ensures var h := Remove(repo, channelNumber, band).history;
      |repo.history| <= |h| <= |repo.history| + 1 && h[..|repo.history|] == repo.history
  {
  }

  // ---------------------------------------------------------------------
  // Rankings

  /** `sorted(self.channels.values(), key=score, reverse=True)`. */
  function Ranked(contents: seq<Record>): seq<Record>
  {
    SortByKey(contents, NegScore)
  }

  /** The listing is a permutation, by descending score, and channels of equal score keep insertion order. */
  lemma RankedOrder(contents: seq<Record>)
    ensures multiset(Ranked(contents)) == multiset(contents)
    ensures forall i, j :: 0 <= i < j < |contents| ==> Score(Ranked(contents)[i]) >= Score(Ranked(contents)[j])
    ensures forall v :: WithKey(Ranked(contents), NegScore, v) == WithKey(contents, NegScore, v)
  {
    SortByKeyPermutes(contents, NegScore);
    SortByKeyAscending(contents, NegScore);
    forall v ensures WithKey(Ranked(contents), NegScore, v) == WithKey(contents, NegScore, v) {
      SortByKeyStable(contents, NegScore, v);
    }
  }

  /** `max(self.channels.values(), key=score, default=None)`, as a position in insertion order. */
  function Best(contents: seq<Record>): (best: Option<nat>)
    ensures best.None? <==> contents == []
    ensures best.Some? ==> best.value < |contents|
    ensures best.Some? ==> forall j :: 0 <= j < |contents| ==> Score(contents[j]) <= Score(contents[best.value])
    ensures best.Some? ==> forall j :: 0 <= j < best.value ==> Score(contents[j]) < Score(contents[best.value])
  {
    if contents == [] then None else Some(ArgMin(contents, NegScore))
  }

  /**
   * The per-band scan of `best_channel_per_band`: a channel of the band
   * replaces the current best only with a strictly higher score.
   */
  function BestInBand(contents: seq<Record>, band: Band): (best: Option<nat>)
    ensures best.Some? ==> best.value < |contents| && contents[best.value].frequencyBand == band
  {
    if contents == [] then None
    else
      var last := |contents| - 1;
      var prev := BestInBand(contents[..last], band);
      if contents[last].frequencyBand == band && (prev.None? || Score(contents[last]) > Score(contents[prev.value]))
      then Some(last)
      else prev
  }

  /** One more channel in the scan. */
  lemma BestInBandStep(contents: seq<Record>, i: nat, band: Band)
    requires i < |contents|
    ensures var prev := BestInBand(contents[..i], band);
      BestInBand(contents[..i + 1], band) ==
        if contents[i].frequencyBand == band && (prev.None? || Score(contents[i]) > Score(contents[prev.value]))
        then Some(i) else prev
  {
    assert contents[..i + 1][..i] == contents[..i];
  }

  /**
   * The scan finds nothing exactly when the band has no channel; otherwise it
   * finds a channel of the band with the highest score, and no earlier channel
   * of the band scores as much.
   */
  lemma {:induction false} BestInBandIsFirstHighest(contents: seq<Record>, band: Band)
    ensures var best := BestInBand(contents, band);
      && (best.None? <==> forall j :: 0 <= j < |contents| ==> contents[j].frequencyBand != band)
      && (best.Some? ==> forall j :: 0 <= j < |contents| && contents[j].frequencyBand == band ==>
                           Score(contents[j]) <= Score(contents[best.value]))
      && (best.Some? ==> forall j :: 0 <= j < best.value && contents[j].frequencyBand == band ==>
                           Score(contents[j]) < Score(contents[best.value]))
  {
    if contents != [] {
      var last := |contents| - 1;
      var init := contents[..last];
      BestInBandIsFirstHighest(init, band);
      assert forall j :: 0 <= j < last ==> init[j] == contents[j];
    }
  }

  /** The keys of the dictionary `best_channel_per_band` starts from. */
  const PerBandKeys: set<string> := {"2.4GHz", "5GHz", "6GHz"}

  /** The dictionary key of a band, as the per-band selection means it. */
  function FrequencyKey(band: Band): string
  {
    match band
    case Band24 => "2.4GHz"
    case Band5 => "5GHz"
    case Band6 => "6GHz"
  }

  /** Every band has its own key, and the keys are exactly the dictionary's. */
  lemma FrequencyKeysCover()
    ensures forall b, b' :: FrequencyKey(b) == FrequencyKey(b') ==> b == b'
    ensures forall k :: k in PerBandKeys <==> exists b :: FrequencyKey(b) == k
  {
    assert FrequencyKey(Band24) == "2.4GHz" && FrequencyKey(Band5) == "5GHz" && FrequencyKey(Band6) == "6GHz";
  }

  /** `f"{frequencyBand}GHz"` for the float band the menus read. */
  function FrequencyKeyAsWritten(band: Band): string
  {
    BandText(band) + "GHz"
  }

  /** For a 5 or 6 GHz channel entered through the menu, the key written is not in the dictionary. */
  lemma FrequencyKeyAsWrittenMisses()
    ensures FrequencyKeyAsWritten(Band5) == "5.0GHz" && FrequencyKeyAsWritten(Band5) !in PerBandKeys
    ensures FrequencyKeyAsWritten(Band6) == "6.0GHz" && FrequencyKeyAsWritten(Band6) !in PerBandKeys
  {
  }

  // ---------------------------------------------------------------------
  // Scenarios

  /** Channel 6 at 20 MHz scores -15, channel 11 at 40 MHz -22.5, and the first is the best. */
  lemma ScoreScenario()
    ensures var c6 := Record(6, 20, 10, 5, 20, 20, Band24);
      var c11 := Record(11, 20, 10, 5, 20, 40, Band24);
      Score(c6) == -15.0 && Score(c11) == -22.5 && Best([c6, c11]) == Some(0)
  {
  }

  /** The measurements of the scenario below, under either spelling of the parameter names. */
  function ScenarioArgs(names: Names): map<string, int>
  {
    map[names.usage := 20, names.interference := 10, names.noise := 5,
        names.transmissionPower := 20, names.channelWidth := 20]
  }

  /** The log texts for channel 1 on 5 GHz. */
  lemma MessagesChannelOne()
    ensures Message("Added", 1, Band5) == "Added Channel 1 on 5.0GHz."
    ensures Message("Removed", 1, Band5) == "Removed Channel 1 on 5.0GHz."
  {
    assert NatText(1) == "1";
  }

  /** Adding channel 1 on 5 GHz to an empty repository stores one record and logs "Added ...". */
  lemma AddScenario(names: Names)
    requires names == CamelCase || names == SnakeCase
    ensures AddOrUpdate(Repo([], []), names, 1, Band5, ScenarioArgs(names))
         == Step(Repo([Record(1, 20, 10, 5, 20, 20, Band5)], ["Added Channel 1 on 5.0GHz."]), Pass)
  {
    var kwArgs := ScenarioArgs(names);
    assert kwArgs.Keys == Measurements(names) && !BindsTwice(names, kwArgs);
    assert Constructed(names, 1, Band5, kwArgs) == Success(Record(1, 20, 10, 5, 20, 20, Band5));
    MessagesChannelOne();
  }

  /** Removing channel 1 on 5 GHz from the repository AddScenario produced empties it and logs "Removed ...". */
  lemma RemoveScenario()
    ensures Remove(Repo([Record(1, 20, 10, 5, 20, 20, Band5)], ["Added Channel 1 on 5.0GHz."]), 1, Band5)
         == Repo([], ["Added Channel 1 on 5.0GHz.", "Removed Channel 1 on 5.0GHz."])
  {
    MessagesChannelOne();
    assert Position([Record(1, 20, 10, 5, 20, 20, Band5)], Key(1, Band5)) == 0;
  }

  /** Adding channel 1 on 5 GHz and removing it again leaves no channel and two log entries. */
  lemma AddRemoveScenario(names: Names)
    requires names == CamelCase || names == SnakeCase
    ensures var added := AddOrUpdate(Repo([], []), names, 1, Band5, ScenarioArgs(names));
      var removed := Remove(added.repo, 1, Band5);
      && added.outcome == Pass
      && removed.contents == []
      && Best(removed.contents) == None
      && removed.history == ["Added Channel 1 on 5.0GHz.", "Removed Channel 1 on 5.0GHz."]
  {
    AddScenario(names);
    RemoveScenario();
  }
}
