/**
 * Service records derived from image labels, and the field copies between
 * the in-memory Job/Service records and their database rows
 * (backend-docker/pier/db/db.go).
 */
module Db {
  import opened Wrappers
  import opened GoStrings
  import opened GoStrconv

  /** time.Time, as an opaque instant. */
  type Time = int

  /** An input or output port: the path where a volume is mounted. */
  datatype IOPort = IOPort(id: string, name: string, path: string)

  datatype Service = Service(
    id: string,
    imageID: string,
    name: string,
    repoTag: string,
    description: string,
    version: string,
    created: Time,
    size: int,
    input: seq<IOPort>,
    output: seq<IOPort>)

  /** The image record a service is derived from. */
  datatype Image = Image(id: string, repoTag: string, labels: map<string, string>, created: Time, size: int)

  /** The namespace of the labels that describe a service. */
  const GefSrvLabelPrefix: string := "eudat.gef.service."

  /** The zero IOPort appended when a port array grows. */
  const EmptyPort := IOPort("", "", "")

  function SetPortField(p: IOPort, field: string, value: string): IOPort
  {
    if field == "name" then p.(name := value)
    else if field == "path" then p.(path := value)
    else p
  }

  /**
   * The port array after one `<index>.<field>` key: fewer than two segments
   * leave it alone; otherwise the index is whatever ParseUint(.., 10, 8)
   * returned (errors ignored), the array is padded with empty ports up to
   * that index, and only a `name` or `path` field is written.
   */
  function WithPortValue(vec: seq<IOPort>, ks: seq<string>, value: string): (r: seq<IOPort>)
    ensures |ks| < 2 ==> r == vec
    ensures |ks| >= 2 ==>
              var id := ParseUint8(ks[0]);
              && |r| == (if id < |vec| then |vec| else id + 1)
              && (forall j :: 0 <= j < |r| && j != id ==> r[j] == if j < |vec| then vec[j] else EmptyPort)
              && r[id] == SetPortField(if id < |vec| then vec[id] else EmptyPort, ks[1], value)
  {
    if |ks| < 2 then vec
    else
      var id := ParseUint8(ks[0]);
      var grown := if id < |vec| then vec else vec + seq(id + 1 - |vec|, _ => EmptyPort);
      grown[id := SetPortField(grown[id], ks[1], value)]
  }

  /** addVecValue: grows the port array one empty port at a time, then sets the field. */
  method AddVecValue(vec: seq<IOPort>, ks: seq<string>, value: string) returns (r: seq<IOPort>)
    ensures r == WithPortValue(vec, ks, value)
  {
    if |ks| < 2 {
      return vec;
    }
    var id := ParseUint8(ks[0]);
    r := vec;
    while |r| < id + 1
      invariant |vec| <= |r| <= (if |vec| < id + 1 then id + 1 else |vec|)
      invariant forall j :: 0 <= j < |r| ==> r[j] == if j < |vec| then vec[j] else EmptyPort
    {
      r := r + [EmptyPort];
    }
    r := r[id := SetPortField(r[id], ks[1], value)];
    var w := WithPortValue(vec, ks, value);
    assert |r| == |w|;
    assert forall j :: 0 <= j < |r| ==> r[j] == w[j];
  }

  /** The effect of one label on the service being built. */
  function ApplyLabel(srv: Service, key: string, value: string): Service
  {
    if !HasPrefix(key, GefSrvLabelPrefix) then srv
    else ApplyFields(srv, Split(key[|GefSrvLabelPrefix|..], '.'), value)
  }

  /** The switch on the first segment of a key inside the service namespace. */
  function ApplyFields(srv: Service, ks: seq<string>, value: string): Service
    requires |ks| >= 1
  {
    if ks[0] == "name" then srv.(name := value)
    else if ks[0] == "description" then srv.(description := value)
    else if ks[0] == "version" then srv.(version := value)
    else if ks[0] == "input" then srv.(input := WithPortValue(srv.input, ks[1..], value))
    else if ks[0] == "output" then srv.(output := WithPortValue(srv.output, ks[1..], value))
    else srv
  }

  /** `order` enumerates the keys of `labels` once each, as a Go map range does. */
  predicate IsIterationOrder(labels: map<string, string>, order: seq<string>)
  {
    && (forall i, j :: 0 <= i < j < |order| ==> order[i] != order[j])
    && (forall i :: 0 <= i < |order| ==> order[i] in labels)
    && (forall k :: k in labels ==> k in order)
  }

  /** The labels applied one after the other in the given order. */
  function ApplyLabels(srv: Service, labels: map<string, string>, order: seq<string>): Service
    requires forall i :: 0 <= i < |order| ==> order[i] in labels
  {
    if order == [] then srv
    else
      var k := order[|order| - 1];
      ApplyLabel(ApplyLabels(srv, labels, order[..|order| - 1]), k, labels[k])
  }

  /** The ports that have a path, in their original order. */
  function WithPath(ports: seq<IOPort>): (r: seq<IOPort>)
    ensures |r| <= |ports|
    ensures forall i :: 0 <= i < |r| ==> r[i].path != ""
  {
    if ports == [] then []
    else
      var last := ports[|ports| - 1];
      WithPath(ports[..|ports| - 1]) + (if last.path != "" then [last] else [])
  }

  /** The surviving ports in their original order, numbered `<kind>0`, `<kind>1`, ... as they are kept. */
  function Renumbered(ports: seq<IOPort>, kind: string): seq<IOPort>
  {
    if ports == [] then []
    else
      var r := Renumbered(ports[..|ports| - 1], kind);
      var last := ports[|ports| - 1];
      if last.path != "" then r + [last.(id := kind + NatToString(|r|))] else r
  }

  /** Renumbering keeps exactly the ports of the filter and names the i-th one `<kind><i>`. */
  lemma {:induction false} RenumberedNumbersFilter(ports: seq<IOPort>, kind: string)
    ensures |Renumbered(ports, kind)| == |WithPath(ports)|
    ensures forall i :: 0 <= i < |WithPath(ports)| ==>
              Renumbered(ports, kind)[i] == WithPath(ports)[i].(id := kind + NatToString(i))
  {
    if ports != [] {
      RenumberedNumbersFilter(ports[..|ports| - 1], kind);
    }
  }

  function BaseService(image: Image, id: string): Service
  {
    Service(id, image.id, "", image.repoTag, "", "", image.created, image.size, [], [])
  }

  lemma {:induction false} ApplyLabelsKeepsImageFields(srv: Service, labels: map<string, string>, order: seq<string>)
    requires forall i :: 0 <= i < |order| ==> order[i] in labels
    ensures var r := ApplyLabels(srv, labels, order);
            && r.id == srv.id && r.imageID == srv.imageID && r.repoTag == srv.repoTag
            && r.created == srv.created && r.size == srv.size
  {
    if order != [] {
      ApplyLabelsKeepsImageFields(srv, labels, order[..|order| - 1]);
    }
  }

  /**
   * The service NewServiceFromImage derives from an image whose labels are
   * visited in the given order: identity fields come from the image and the
   * id; every surviving port has a path and is numbered by its position.
   */
  function ServiceFromImage(image: Image, order: seq<string>, id: string): (srv: Service)
    requires IsIterationOrder(image.labels, order)
    ensures srv.id == id && srv.imageID == image.id && srv.repoTag == image.repoTag
    ensures srv.created == image.created && srv.size == image.size
    ensures forall i :: 0 <= i < |srv.input| ==> srv.input[i].path != "" && srv.input[i].id == "input" + NatToString(i)
    ensures forall i :: 0 <= i < |srv.output| ==> srv.output[i].path != "" && srv.output[i].id == "output" + NatToString(i)
  {
    var raw := ApplyLabels(BaseService(image, id), image.labels, order);
    ApplyLabelsKeepsImageFields(BaseService(image, id), image.labels, order);
    RenumberedNumbersFilter(raw.input, "input");
    RenumberedNumbersFilter(raw.output, "output");
    raw.(input := Renumbered(raw.input, "input"), output := Renumbered(raw.output, "output"))
  }

  lemma RenumberedSnoc(ports: seq<IOPort>, p: IOPort, kind: string)
    ensures Renumbered(ports + [p], kind)
            == Renumbered(ports, kind) + (if p.path != "" then [p.(id := kind + NatToString(|Renumbered(ports, kind)|))] else [])
  {
    assert (ports + [p])[..|ports|] == ports;
  }

  /** The filtering loops at the end of NewServiceFromImage. */
  method RenumberPorts(ports: seq<IOPort>, kind: string) returns (out: seq<IOPort>)
    ensures out == Renumbered(ports, kind)
  {
    out := [];
    for i := 0 to |ports|
      invariant out == Renumbered(ports[..i], kind)
    {
      var p := ports[i];
      assert ports[..i + 1] == ports[..i] + [p];
      RenumberedSnoc(ports[..i], p, kind);
      if p.path != "" {
        p := p.(id := kind + NatToString(|out|));
        out := out + [p];
      }
    }
    assert ports[..|ports|] == ports;
  }

  /** NewServiceFromImage, visiting the labels in the given order. */
  method NewServiceFromImage(image: Image, order: seq<string>, id: string) returns (srv: Service)
    requires IsIterationOrder(image.labels, order)
    ensures srv == ServiceFromImage(image, order, id)
  {
    srv := BaseService(image, id);
    for n := 0 to |order|
      invariant srv == ApplyLabels(BaseService(image, id), image.labels, order[..n])
    {
      var k := order[n];
      var v := image.labels[k];
      assert order[..n + 1][..n] == order[..n];
      if !HasPrefix(k, GefSrvLabelPrefix) {
        continue;
      }
      var ks := Split(k[|GefSrvLabelPrefix|..], '.');
      if ks[0] == "name" {
        srv := srv.(name := v);
      } else if ks[0] == "description" {
        srv := srv.(description := v);
      } else if ks[0] == "version" {
        srv := srv.(version := v);
      } else if ks[0] == "input" {
        var ports := AddVecValue(srv.input, ks[1..], v);
        srv := srv.(input := ports);
      } else if ks[0] == "output" {
        var ports := AddVecValue(srv.output, ks[1..], v);
        srv := srv.(output := ports);
      }
    }
    assert order[..|order|] == order;
    var input := RenumberPorts(srv.input, "input");
    var output := RenumberPorts(srv.output, "output");
    srv := srv.(input := input, output := output);
  }

  // Properties of the label parser

  /** A label outside the service namespace changes nothing. */
  lemma {:induction false} ApplyLabelsSameValues(srv: Service, labels: map<string, string>, labels': map<string, string>, order: seq<string>)
    requires forall i :: 0 <= i < |order| ==> order[i] in labels && order[i] in labels' && labels[order[i]] == labels'[order[i]]
    ensures ApplyLabels(srv, labels, order) == ApplyLabels(srv, labels', order)
  {
    if order != [] {
      ApplyLabelsSameValues(srv, labels, labels', order[..|order| - 1]);
    }
  }

  /** Where the elements of a sequence end up after inserting one element at `pos`. */
  lemma InsertAt<T>(s: seq<T>, x: T, pos: nat)
    requires pos <= |s|
    ensures var s' := s[..pos] + [x] + s[pos..];
            && |s'| == |s| + 1 && s'[pos] == x
            && (forall i :: 0 <= i < pos ==> s'[i] == s[i])
            && (forall i :: pos < i < |s'| ==> s'[i] == s[i - 1])
  {
  }

  lemma {:induction false} ApplyLabelsInsertForeign(
    srv: Service, labels: map<string, string>, order: seq<string>, k: string, v: string, pos: nat)
    requires forall i :: 0 <= i < |order| ==> order[i] in labels
    requires k !in labels && !HasPrefix(k, GefSrvLabelPrefix) && pos <= |order|
    ensures var order' := order[..pos] + [k] + order[pos..];
            && (forall i :: 0 <= i < |order'| ==> order'[i] in labels[k := v])
            && ApplyLabels(srv, labels[k := v], order') == ApplyLabels(srv, labels, order)
    decreases |order|
  {
    var labels' := labels[k := v];
    var order' := order[..pos] + [k] + order[pos..];
    InsertAt(order, k, pos);
    forall i | 0 <= i < |order'| ensures order'[i] in labels' {
      if i < pos {
        assert order'[i] == order[i];
      } else if i > pos {
        assert order'[i] == order[i - 1];
      }
    }
    if pos == |order| {
      assert order'[..|order'| - 1] == order;
      ApplyLabelsSameValues(srv, labels, labels', order);
      assert ApplyLabels(srv, labels', order') == ApplyLabel(ApplyLabels(srv, labels', order), k, v);
    } else {
      var init := order[..|order| - 1];
      var last := order[|order| - 1];
      var init' := init[..pos] + [k] + init[pos..];
      InsertAt(init, k, pos);
      assert order'[..|order'| - 1] == init';
      assert order'[|order'| - 1] == last;
      ApplyLabelsInsertForeign(srv, labels, init, k, v, pos);
      assert labels'[last] == labels[last];
    }
  }

  /** Inserting a new key anywhere in an iteration order gives an iteration order of the larger map. */
  lemma InsertKeepsIterationOrder(labels: map<string, string>, order: seq<string>, k: string, v: string, pos: nat)
    requires IsIterationOrder(labels, order) && k !in labels && pos <= |order|
    ensures IsIterationOrder(labels[k := v], order[..pos] + [k] + order[pos..])
  {
    var order' := order[..pos] + [k] + order[pos..];
    InsertAt(order, k, pos);
    forall i, j | 0 <= i < j < |order'| ensures order'[i] != order'[j] {
      if i < pos && j > pos {
        assert order'[j] == order[j - 1];
      } else if i > pos {
        assert order'[i] == order[i - 1] && order'[j] == order[j - 1];
      }
    }
    forall x | x in labels[k := v] ensures x in order' {
      if x != k {
        var i :| 0 <= i < |order| && order[i] == x;
        if i < pos {
          assert order'[i] == x;
        } else {
          assert order'[i + 1] == x;
        }
      }
    }
  }

  /**
   * Adding a label whose key is outside `eudat.gef.service.`, at any point of
   * the iteration, leaves the derived service unchanged.
   */
  lemma ForeignLabelIgnored(image: Image, order: seq<string>, id: string, k: string, v: string, pos: nat)
    requires IsIterationOrder(image.labels, order)
    requires k !in image.labels && !HasPrefix(k, GefSrvLabelPrefix) && pos <= |order|
    ensures IsIterationOrder(image.labels[k := v], order[..pos] + [k] + order[pos..])
    ensures ServiceFromImage(image.(labels := image.labels[k := v]), order[..pos] + [k] + order[pos..], id)
            == ServiceFromImage(image, order, id)
  {
    InsertKeepsIterationOrder(image.labels, order, k, v, pos);
    ApplyLabelsInsertForeign(BaseService(image, id), image.labels, order, k, v, pos);
    assert BaseService(image.(labels := image.labels[k := v]), id) == BaseService(image, id);
  }

  lemma PrefixedKey(rest: string)
    ensures HasPrefix(GefSrvLabelPrefix + rest, GefSrvLabelPrefix)
    ensures (GefSrvLabelPrefix + rest)[|GefSrvLabelPrefix|..] == rest
  {
    assert (GefSrvLabelPrefix + rest)[..|GefSrvLabelPrefix|] == GefSrvLabelPrefix;
  }

  /** A key inside the namespace is switched on the dot-separated segments after the prefix. */
  lemma PrefixedLabel(srv: Service, rest: string, v: string)
    ensures ApplyLabel(srv, GefSrvLabelPrefix + rest, v) == ApplyFields(srv, Split(rest, '.'), v)
  {
    PrefixedKey(rest);
  }

  /** A label `<field>` naming a scalar field sets exactly that field. */
  lemma ScalarLabel(srv: Service, field: string, v: string)
    requires '.' !in field
    ensures ApplyLabel(srv, GefSrvLabelPrefix + field, v) == ApplyFields(srv, [field], v)
  {
    PrefixedLabel(srv, field, v);
    SplitNoSeparator(field, '.');
  }

  lemma NameLabel(srv: Service, v: string)
    ensures ApplyLabel(srv, GefSrvLabelPrefix + "name", v) == srv.(name := v)
  {
    assert '.' !in "name" by { assert "name" == ['n', 'a', 'm', 'e']; }
    ScalarLabel(srv, "name", v);
  }

  lemma DescriptionLabel(srv: Service, v: string)
    ensures ApplyLabel(srv, GefSrvLabelPrefix + "description", v) == srv.(description := v)
  {
    assert '.' !in "description" by { assert "description" == ['d', 'e', 's', 'c', 'r', 'i', 'p', 't', 'i', 'o', 'n']; }
    ScalarLabel(srv, "description", v);
  }

  lemma VersionLabel(srv: Service, v: string)
    ensures ApplyLabel(srv, GefSrvLabelPrefix + "version", v) == srv.(version := v)
  {
    assert '.' !in "version" by { assert "version" == ['v', 'e', 'r', 's', 'i', 'o', 'n']; }
    ScalarLabel(srv, "version", v);
  }

  /** The `name`, `description` and `version` labels set exactly that field. */
  lemma ScalarLabelsSetTheirField(srv: Service, v: string)
    ensures ApplyLabel(srv, GefSrvLabelPrefix + "name", v) == srv.(name := v)
    ensures ApplyLabel(srv, GefSrvLabelPrefix + "description", v) == srv.(description := v)
    ensures ApplyLabel(srv, GefSrvLabelPrefix + "version", v) == srv.(version := v)
  {
    NameLabel(srv, v);
    DescriptionLabel(srv, v);
    VersionLabel(srv, v);
  }

  /** A first segment other than the five known ones leaves the service unchanged. */
  lemma UnknownSegmentIgnored(srv: Service, rest: string, v: string)
    requires Split(rest, '.')[0] !in {"name", "description", "version", "input", "output"}
    ensures ApplyLabel(srv, GefSrvLabelPrefix + rest, v) == srv
  {
    PrefixedLabel(srv, rest, v);
  }

  /** An `input`/`output` key without both an index and a field changes nothing. */
  lemma ShortPortKeyIgnored(srv: Service, rest: string, v: string)
    requires Split(rest, '.')[0] in {"input", "output"} && |Split(rest, '.')| < 3
    ensures ApplyLabel(srv, GefSrvLabelPrefix + rest, v) == srv
  {
    PrefixedLabel(srv, rest, v);
  }

  /** The text after the prefix of a `<kind>.<index>.<field>` key. */
  function PortKey(kind: string, index: string, field: string): string
  {
    kind + "." + index + "." + field
  }

  lemma PortKeySplit(kind: string, index: string, field: string)
    requires '.' !in kind && '.' !in index && '.' !in field
    ensures Split(PortKey(kind, index, field), '.') == [kind, index, field]
  {
    assert PortKey(kind, index, field) == kind + ['.'] + (index + ['.'] + field);
    SplitCons(kind, '.', index + ['.'] + field);
    SplitCons(index, '.', field);
    SplitNoSeparator(field, '.');
  }

  /** `input.<index>.<field>` updates the input ports through addVecValue, and nothing else. */
  lemma InputPortLabel(srv: Service, index: string, field: string, v: string)
    requires '.' !in index && '.' !in field
    ensures ApplyLabel(srv, GefSrvLabelPrefix + "input." + index + "." + field, v)
            == srv.(input := WithPortValue(srv.input, [index, field], v))
  {
    assert GefSrvLabelPrefix + "input." + index + "." + field == GefSrvLabelPrefix + PortKey("input", index, field);
    PrefixedLabel(srv, PortKey("input", index, field), v);
    assert '.' !in "input" by { assert "input" == ['i', 'n', 'p', 'u', 't']; }
    PortKeySplit("input", index, field);
    assert ["input", index, field][1..] == [index, field];
  }

  /** `output.<index>.<field>` updates the output ports through addVecValue, and nothing else. */
  lemma OutputPortLabel(srv: Service, index: string, field: string, v: string)
    requires '.' !in index && '.' !in field
    ensures ApplyLabel(srv, GefSrvLabelPrefix + "output." + index + "." + field, v)
            == srv.(output := WithPortValue(srv.output, [index, field], v))
  {
    assert GefSrvLabelPrefix + "output." + index + "." + field == GefSrvLabelPrefix + PortKey("output", index, field);
    PrefixedLabel(srv, PortKey("output", index, field), v);
    assert '.' !in "output" by { assert "output" == ['o', 'u', 't', 'p', 'u', 't']; }
    PortKeySplit("output", index, field);
    assert ["output", index, field][1..] == [index, field];
  }

  /**
   * A field other than `name`/`path` still pads the input array up to the
   * parsed index, and sets nothing.
   */
  lemma UnknownPortFieldOnlyGrows(srv: Service, index: string, field: string, v: string)
    requires '.' !in index && '.' !in field && field != "name" && field != "path"
    ensures var r := ApplyLabel(srv, GefSrvLabelPrefix + "input." + index + "." + field, v);
            var n := ParseUint8(index);
            && |r.input| == (if n < |srv.input| then |srv.input| else n + 1)
            && (forall j :: 0 <= j < |r.input| ==> r.input[j] == if j < |srv.input| then srv.input[j] else EmptyPort)
            && r.(input := srv.input) == srv
  {
    InputPortLabel(srv, index, field, v);
  }

  /**
   * The index is never rejected, only clamped to at most 255, so the raw
   * port arrays never grow beyond 256 entries.
   */
  lemma {:induction false} RawPortsBounded(srv: Service, labels: map<string, string>, order: seq<string>)
    requires forall i :: 0 <= i < |order| ==> order[i] in labels
    requires |srv.input| <= 256 && |srv.output| <= 256
    ensures |ApplyLabels(srv, labels, order).input| <= 256
    ensures |ApplyLabels(srv, labels, order).output| <= 256
  {
    if order != [] {
      RawPortsBounded(srv, labels, order[..|order| - 1]);
    }
  }

  /** The positions of the ports that have a path, ascending. */
  ghost function KeptIndices(ports: seq<IOPort>): seq<nat>
  {
    if ports == [] then []
    else KeptIndices(ports[..|ports| - 1]) + (if ports[|ports| - 1].path != "" then [|ports| - 1] else [])
  }

  /**
   * The filter keeps exactly the ports with a path, in ascending index order:
   * the i-th survivor is the port at the i-th kept position, positions
   * increase, and every port with a path is kept.
   */
  lemma {:induction false} WithPathIsOrderedFilter(ports: seq<IOPort>)
    ensures |KeptIndices(ports)| == |WithPath(ports)|
    ensures forall i :: 0 <= i < |KeptIndices(ports)| ==>
              KeptIndices(ports)[i] < |ports| && WithPath(ports)[i] == ports[KeptIndices(ports)[i]]
    ensures forall i, j :: 0 <= i < j < |KeptIndices(ports)| ==> KeptIndices(ports)[i] < KeptIndices(ports)[j]
    ensures forall j :: 0 <= j < |ports| && ports[j].path != "" ==> j in KeptIndices(ports)
  {
    if ports != [] {
      var init := ports[..|ports| - 1];
      WithPathIsOrderedFilter(init);
      assert forall j :: 0 <= j < |init| ==> init[j] == ports[j];
    }
  }

  // The example of three input labels

  function InputKey(index: string, field: string): string
  {
    GefSrvLabelPrefix + "input." + index + "." + field
  }

  lemma InputKeySplit(index: string, field: string)
    requires '.' !in index && '.' !in field
    ensures HasPrefix(InputKey(index, field), GefSrvLabelPrefix)
    ensures Split(InputKey(index, field)[|GefSrvLabelPrefix|..], '.') == ["input", index, field]
  {
    var rest := "input" + ['.'] + (index + ['.'] + field);
    assert InputKey(index, field) == GefSrvLabelPrefix + rest;
    PrefixedKey(rest);
    SplitCons("input", '.', index + ['.'] + field);
    SplitCons(index, '.', field);
    SplitNoSeparator(field, '.');
  }

  lemma InputKeyInjective(a: string, b: string, c: string, d: string)
    requires '.' !in a && '.' !in b && '.' !in c && '.' !in d
    requires InputKey(a, b) == InputKey(c, d)
    ensures a == c && b == d
  {
    InputKeySplit(a, b);
    InputKeySplit(c, d);
  }

  const NameKey := InputKey("0", "name")
  const PathKey := InputKey("0", "path")
  const Path2Key := InputKey("2", "path")
  const ExampleLabels := map[NameKey := "a", PathKey := "/in", Path2Key := "/in2"]

  lemma ExampleKeysDistinct()
    ensures NameKey != PathKey && NameKey != Path2Key && PathKey != Path2Key
  {
    if NameKey == PathKey { InputKeyInjective("0", "name", "0", "path"); }
    if NameKey == Path2Key { InputKeyInjective("0", "name", "2", "path"); }
    if PathKey == Path2Key { InputKeyInjective("0", "path", "2", "path"); }
  }

  /** The raw input array once some of the example labels have been applied, in any order. */
  function ExampleVec(name: bool, path: bool, path2: bool): seq<IOPort>
  {
    var p0 := IOPort("", if name then "a" else "", if path then "/in" else "");
    if path2 then [p0, EmptyPort, IOPort("", "", "/in2")]
    else if name || path then [p0]
    else []
  }

  lemma ExampleNameStep(path: bool, path2: bool)
    ensures WithPortValue(ExampleVec(false, path, path2), ["0", "name"], "a") == ExampleVec(true, path, path2)
  {
    ParseUint8Exact("0");
    var w := WithPortValue(ExampleVec(false, path, path2), ["0", "name"], "a");
    assert |w| == |ExampleVec(true, path, path2)|;
  }

  lemma ExamplePathStep(name: bool, path2: bool)
    ensures WithPortValue(ExampleVec(name, false, path2), ["0", "path"], "/in") == ExampleVec(name, true, path2)
  {
    ParseUint8Exact("0");
    var w := WithPortValue(ExampleVec(name, false, path2), ["0", "path"], "/in");
    assert |w| == |ExampleVec(name, true, path2)|;
  }

  lemma ExamplePath2Step(name: bool, path: bool)
    ensures WithPortValue(ExampleVec(name, path, false), ["2", "path"], "/in2") == ExampleVec(name, path, true)
  {
    ParseUint8Exact("2");
    var w := WithPortValue(ExampleVec(name, path, false), ["2", "path"], "/in2");
    var e := ExampleVec(name, path, true);
    assert |w| == |e| == 3;
    assert w[0] == e[0] && w[1] == e[1] && w[2] == e[2];
  }

  /** One more example label sets its flag and leaves the other two. */
  lemma ExampleStep(mid: Service, k: string, name: bool, path: bool, path2: bool)
    requires k in ExampleLabels && mid.input == ExampleVec(name, path, path2)
    requires (k == NameKey ==> !name) && (k == PathKey ==> !path) && (k == Path2Key ==> !path2)
    ensures ApplyLabel(mid, k, ExampleLabels[k])
            == mid.(input := ExampleVec(name || k == NameKey, path || k == PathKey, path2 || k == Path2Key))
  {
    ExampleKeysDistinct();
    if k == NameKey {
      InputPortLabel(mid, "0", "name", "a");
      ExampleNameStep(path, path2);
    } else if k == PathKey {
      InputPortLabel(mid, "0", "path", "/in");
      ExamplePathStep(name, path2);
    } else {
      InputPortLabel(mid, "2", "path", "/in2");
      ExamplePath2Step(name, path);
    }
  }

  /** The last key of a duplicate-free order is not among the earlier ones, and membership splits accordingly. */
  lemma LastKeyIsNew(order: seq<string>)
    requires order != [] && forall i, j :: 0 <= i < j < |order| ==> order[i] != order[j]
    ensures order[|order| - 1] !in order[..|order| - 1]
    ensures forall x :: x in order <==> x in order[..|order| - 1] || x == order[|order| - 1]
  {
    assert order == order[..|order| - 1] + [order[|order| - 1]];
  }

  lemma {:induction false} ExampleRaw(srv: Service, order: seq<string>)
    requires forall i, j :: 0 <= i < j < |order| ==> order[i] != order[j]
    requires forall i :: 0 <= i < |order| ==> order[i] in ExampleLabels
    requires srv.input == []
    ensures ApplyLabels(srv, ExampleLabels, order) == srv.(input := ExampleVec(NameKey in order, PathKey in order, Path2Key in order))
  {
    if order != [] {
      var init := order[..|order| - 1];
      var k := order[|order| - 1];
      ExampleRaw(srv, init);
      LastKeyIsNew(order);
      ExampleStep(ApplyLabels(srv, ExampleLabels, init), k, NameKey in init, PathKey in init, Path2Key in init);
    }
  }

  /**
   * Labels `input.0.name=a`, `input.0.path=/in` and `input.2.path=/in2`
   * give exactly the ports `{input0, a, /in}` and `{input1, "", /in2}`,
   * whatever order the labels are visited in.
   */
  lemma ExampleInputPorts(image: Image, order: seq<string>, id: string)
    requires image.labels == ExampleLabels && IsIterationOrder(image.labels, order)
    ensures ServiceFromImage(image, order, id).input == [IOPort("input0", "a", "/in"), IOPort("input1", "", "/in2")]
    ensures ServiceFromImage(image, order, id).output == []
  {
    ExampleRaw(BaseService(image, id), order);
    assert NameKey in order && PathKey in order && Path2Key in order;
    ExampleRenumbered();
  }

  lemma ExampleRenumbered()
    ensures Renumbered(ExampleVec(true, true, true), "input") == [IOPort("input0", "a", "/in"), IOPort("input1", "", "/in2")]
  {
    var raw := ExampleVec(true, true, true);
    assert NatToString(0) == "0" && NatToString(1) == "1";
    assert "input" + "0" == "input0" && "input" + "1" == "input1";
    assert raw[..1] == [raw[0]] && raw[..1][..0] == [];
    assert Renumbered(raw[..1], "input") == [IOPort("input0", "a", "/in")];
    assert raw[..2][..1] == raw[..1];
    assert Renumbered(raw[..2], "input") == [IOPort("input0", "a", "/in")];
    assert raw[..2] == raw[..|raw| - 1];
  }

  // Field copies between the records and their database rows

  datatype JobState = JobState(error: string, status: string, code: int)

  datatype Task = Task(id: string, name: string, containerID: string, error: string, exitCode: int, consoleOutput: string)

  /** A job record; its State pointer is taken to be non-nil. */
  datatype Job = Job(
    id: string,
    serviceID: string,
    input: string,
    created: Time,
    state: JobState,
    inputVolume: string,
    outputVolume: string,
    tasks: seq<Task>)

  datatype JobTable = JobTable(
    id: string,
    serviceID: string,
    input: string,
    created: Time,
    error: string,
    status: string,
    code: int,
    inputVolume: string,
    outputVolume: string,
    revision: int)

  datatype ServiceTable = ServiceTable(
    id: string,
    imageID: string,
    name: string,
    repoTag: string,
    description: string,
    version: string,
    revision: int,
    created: Time,
    size: int)

  /**
   * The field copies of MapStoredJob2JSON; the tasks it looks up in the
   * Tasks table are passed in.
   */
  function JobFromTable(t: JobTable, tasks: seq<Task>): Job
  {
    Job(t.id, t.serviceID, t.input, t.created, JobState(t.error, t.status, t.code), t.inputVolume, t.outputVolume, tasks)
  }

  /**
   * MapJSON2StoredJob: a fresh row (revision 0) from which the job is
   * restored field for field.
   */
  function JobToTable(job: Job): (t: JobTable)
    ensures t.revision == 0
    ensures JobFromTable(t, job.tasks) == job
  {
    JobTable(job.id, job.serviceID, job.input, job.created, job.state.error, job.state.status, job.state.code,
             job.inputVolume, job.outputVolume, 0)
  }

  /** A row read back and stored again differs only in its revision. */
  lemma JobTableRoundTrip(t: JobTable, tasks: seq<Task>)
    ensures JobToTable(JobFromTable(t, tasks)) == t.(revision := 0)
  {
  }

  /**
   * The field copies of MapStoredService2JSON; the ports it looks up in the
   * IOPorts table are passed in.
   */
  function ServiceFromTable(t: ServiceTable, input: seq<IOPort>, output: seq<IOPort>): Service
  {
    Service(t.id, t.imageID, t.name, t.repoTag, t.description, t.version, t.created, t.size, input, output)
  }

  /**
   * MapJSON2StoredService: a fresh row (revision 0) from which the service
   * is restored field for field.
   */
  function ServiceToTable(s: Service): (t: ServiceTable)
    ensures t.revision == 0
    ensures ServiceFromTable(t, s.input, s.output) == s
  {
    ServiceTable(s.id, s.imageID, s.name, s.repoTag, s.description, s.version, 0, s.created, s.size)
  }

  lemma ServiceTableRoundTrip(t: ServiceTable, input: seq<IOPort>, output: seq<IOPort>)
    ensures ServiceToTable(ServiceFromTable(t, input, output)) == t.(revision := 0)
  {
  }
}
