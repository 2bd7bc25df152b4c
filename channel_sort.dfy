/**
 * `src/utils/sort.ts`: grouping a flat list of Discord channels into categories,
 * and parsing a `field:order,field:order` sort specification.
 */
module ChannelSort {
  import opened Wrappers
  import opened Text

  /** A channel's `parent_id`: `null`, absent, or the id of another channel. */
  datatype ParentRef = Null | Absent | Parent(id: string)

  /** A channel as the source sees it; `attrs` stands for every other field, copied unchanged by a spread. */
  datatype Channel = Channel(id: string, name: Option<string>, parent: ParentRef, attrs: map<string, string>)

  /** An output group: a category channel (or the synthetic unCategorized bucket) and its channels. */
  datatype Category = Category(id: string, title: string, subChannels: seq<Channel>)

  const UnCategorizedId := "0"
  const UnCategorizedTitle := "unCategorized"

  /** `parent_id === null`: only an explicit null makes a root. */
  predicate IsRoot(c: Channel) {
    c.parent == Null
  }

  /** `channel.name || ""`. */
  function Title(c: Channel): string {
    match c.name
    case Some(n) => n
    case None => ""
  }

  /** `channels.filter(c => c.parent_id === id)`. */
  function ChildrenOf(channels: seq<Channel>, id: string): (r: seq<Channel>)
    ensures |r| <= |channels|
    ensures forall c :: c in r <==> c in channels && c.parent == Parent(id)
  {
    if channels == [] then []
    else (if channels[0].parent == Parent(id) then [channels[0]] else []) + ChildrenOf(channels[1..], id)
  }

  /** `filter` keeps the input order and every occurrence: filtering `p + q` filters `p`, then `q`. */
  lemma {:induction false} ChildrenOfAppend(p: seq<Channel>, q: seq<Channel>, id: string)
    ensures ChildrenOf(p + q, id) == ChildrenOf(p, id) + ChildrenOf(q, id)
    decreases |p|
  {
    if p == [] {
      assert p + q == q;
    } else {
      ChildrenOfAppend(p[1..], q, id);
      assert (p + q)[1..] == p[1..] + q;
      assert (p + q)[0] == p[0];
    }
  }

  /** A single channel is kept exactly when its parent is `id`. */
  lemma ChildrenOfSingle(c: Channel, id: string)
    ensures ChildrenOf([c], id) == if c.parent == Parent(id) then [c] else []
  {
    assert [c][1..] == [];
  }

  /** A root with no child, moved into the unCategorized bucket as its own parent. */
  function AsUncategorized(c: Channel): Channel {
    c.(parent := Parent(c.id))
  }

  /** The categories contributed by the channels of `part`, with children looked up in `all`. */
  function Grouped(all: seq<Channel>, part: seq<Channel>): (r: seq<Category>)
    ensures |r| <= |part|
    ensures forall k :: 0 <= k < |r| ==> r[k].subChannels != []
  {
    if part == [] then []
    else
      var c := part[|part| - 1];
      Grouped(all, part[..|part| - 1])
      + (if IsRoot(c) && ChildrenOf(all, c.id) != [] then [Category(c.id, Title(c), ChildrenOf(all, c.id))] else [])
  }

  /** The childless roots among `part`, in order, as they appear in the unCategorized bucket. */
  function Ungrouped(all: seq<Channel>, part: seq<Channel>): (r: seq<Channel>)
    ensures |r| <= |part|
    ensures forall k :: 0 <= k < |r| ==> r[k].parent == Parent(r[k].id)
  {
    if part == [] then []
    else
      var c := part[|part| - 1];
      Ungrouped(all, part[..|part| - 1])
      + (if IsRoot(c) && ChildrenOf(all, c.id) == [] then [AsUncategorized(c)] else [])
  }

  /** The unCategorized bucket, present only when it has channels. */
  function Bucket(uncategorized: seq<Channel>): seq<Category> {
    if uncategorized == [] then [] else [Category(UnCategorizedId, UnCategorizedTitle, uncategorized)]
  }

  /** What `sortChannels` returns: the categories in input order, then the bucket. */
  function SortedChannels(channels: seq<Channel>): (r: seq<Category>)
    ensures forall k :: 0 <= k < |r| ==> r[k].subChannels != []
  {
    Grouped(channels, channels) + Bucket(Ungrouped(channels, channels))
  }

  /** `sortChannels`: one pass over the channels, then the bucket appended last. */
  method SortChannels(channels: seq<Channel>) returns (sorted: seq<Category>)
    ensures sorted == SortedChannels(channels)
  {
    sorted := [];
    var unCategorized: seq<Channel> := [];
    var i := 0;
    while i < |channels|
      invariant 0 <= i <= |channels|
      invariant sorted == Grouped(channels, channels[..i])
      invariant unCategorized == Ungrouped(channels, channels[..i])
    {
      var channel := channels[i];
      assert channels[..i + 1][..i] == channels[..i];
      if IsRoot(channel) {
        var subChannels := ChildrenOf(channels, channel.id);
        if |subChannels| > 0 {
          sorted := sorted + [Category(channel.id, Title(channel), subChannels)];
        } else {
          unCategorized := unCategorized + [AsUncategorized(channel)];
        }
      }
      i := i + 1;
    }
    assert channels[..i] == channels;
    if |unCategorized| > 0 {
      sorted := sorted + [Category(UnCategorizedId, UnCategorizedTitle, unCategorized)];
    }
  }

  /**
   * The unCategorized bucket (id "0") comes after every category and is there exactly
   * when some root has no child.
   */
  lemma BucketLast(channels: seq<Channel>)
    ensures var sorted := SortedChannels(channels); var unc := Ungrouped(channels, channels);
      && |sorted| == |Grouped(channels, channels)| + (if unc == [] then 0 else 1)
      && (unc != [] ==> sorted[|sorted| - 1] == Category(UnCategorizedId, UnCategorizedTitle, unc))
      && (unc != [] <==> exists c :: c in channels && IsRoot(c) && ChildrenOf(channels, c.id) == [])
  {
    UngroupedAreChildlessRoots(channels, channels);
    var unc := Ungrouped(channels, channels);
    if unc != [] {
      assert unc[0] in unc;
    }
  }

  /** Grouping follows the input: the categories of `p + q` are those of `p` followed by those of `q`. */
  lemma {:induction false} GroupedAppend(all: seq<Channel>, p: seq<Channel>, q: seq<Channel>)
    ensures Grouped(all, p + q) == Grouped(all, p) + Grouped(all, q)
    decreases |q|
  {
    if q != [] {
      GroupedAppend(all, p, q[..|q| - 1]);
      assert (p + q)[..|p + q| - 1] == p + q[..|q| - 1];
    } else {
      assert p + q == p;
    }
  }

  /**
   * Each grouped category is a root of the input with at least one child, titled by its
   * name, holding exactly the input channels whose parent is that root, in input order;
   * and every root with a child is grouped.
   */
  lemma {:induction false} GroupedAreRootsWithChildren(all: seq<Channel>, part: seq<Channel>)
    ensures forall cat :: cat in Grouped(all, part) ==>
      exists c :: c in part && IsRoot(c) && cat.id == c.id && cat.title == Title(c)
        && cat.subChannels == ChildrenOf(all, c.id) && |cat.subChannels| > 0
    ensures forall c :: c in part && IsRoot(c) && ChildrenOf(all, c.id) != [] ==>
      Category(c.id, Title(c), ChildrenOf(all, c.id)) in Grouped(all, part)
  {
    if part != [] {
      var init := part[..|part| - 1];
      GroupedAreRootsWithChildren(all, init);
      assert part == init + [part[|part| - 1]];
    }
  }

  /** The bucket holds exactly the childless roots, each with `parent_id` rewritten to its own id. */
  lemma {:induction false} UngroupedAreChildlessRoots(all: seq<Channel>, part: seq<Channel>)
    ensures forall u :: u in Ungrouped(all, part) <==>
      exists c :: c in part && IsRoot(c) && ChildrenOf(all, c.id) == [] && u == AsUncategorized(c)
  {
    if part != [] {
      var init := part[..|part| - 1];
      UngroupedAreChildlessRoots(all, init);
      assert part == init + [part[|part| - 1]];
    }
  }

  /**
   * A channel that is not a root and whose parent is not a root of the input (an orphan,
   * or a channel nested below a non-root) appears in no output category.
   */
  lemma OrphanDropped(channels: seq<Channel>, orphan: Channel)
    requires !IsRoot(orphan)
    requires forall c :: c in channels && IsRoot(c) ==> orphan.parent != Parent(c.id)
    ensures forall cat :: cat in SortedChannels(channels) ==> orphan !in cat.subChannels
  {
    var sorted := SortedChannels(channels);
    GroupedAreRootsWithChildren(channels, channels);
    UngroupedAreChildlessRoots(channels, channels);
    forall cat | cat in sorted
      ensures orphan !in cat.subChannels
    {
      if cat in Grouped(channels, channels) {
        var c :| c in channels && IsRoot(c) && cat.id == c.id && cat.subChannels == ChildrenOf(channels, c.id)
          && |cat.subChannels| > 0;
      } else {
        assert cat.subChannels == Ungrouped(channels, channels);
      }
    }
  }

  // ---------------------------------------------------------------------------
  // sortByHandler

  /** The field of one `field:order` segment: the text before the first `:`. */
  function Field(segment: string): string {
    Split(segment, ':')[0]
  }

  /** `order === 'desc' ? -1 : 1`, where `order` is the text between the first and second `:` (undefined without a `:`). */
  function Direction(segment: string): (d: int)
    ensures d == -1 || d == 1
  {
    var parts := Split(segment, ':');
    if |parts| >= 2 && parts[1] == "desc" then -1 else 1
  }

  /** One property of a JavaScript object: its key and its value. */
  datatype Property = Property(key: string, value: int)

  /** No string occurs twice. */
  predicate Distinct(xs: seq<string>) {
    forall i, j :: 0 <= i < j < |xs| ==> xs[i] != xs[j]
  }

  /** The keys of an object's properties, in property order. */
  function Keys(obj: seq<Property>): (ks: seq<string>)
    ensures |ks| == |obj|
    ensures forall i :: 0 <= i < |obj| ==> ks[i] == obj[i].key
  {
    if obj == [] then [] else Keys(obj[..|obj| - 1]) + [obj[|obj| - 1].key]
  }

  /** `obj[key]` for a key the object has. */
  function Get(obj: seq<Property>, key: string): int
    requires key in Keys(obj)
  {
    var last := obj[|obj| - 1];
    if last.key == key then last.value else Get(obj[..|obj| - 1], key)
  }

  /** The properties named `key` take `value`, each in its place. */
  function Overwrite(obj: seq<Property>, key: string, value: int): (r: seq<Property>)
    ensures |r| == |obj|
    ensures forall i :: 0 <= i < |obj| ==> r[i] == if obj[i].key == key then Property(key, value) else obj[i]
  {
    if obj == [] then []
    else
      var last := obj[|obj| - 1];
      Overwrite(obj[..|obj| - 1], key, value) + [if last.key == key then Property(key, value) else last]
  }

  /**
   * `obj[key] = value`: an existing property keeps its place and takes the new value; a
   * new property is added after all the others.
   */
  function Assign(obj: seq<Property>, key: string, value: int): seq<Property> {
    if key in Keys(obj) then Overwrite(obj, key, value) else obj + [Property(key, value)]
  }

  lemma {:induction false} OverwriteSpec(obj: seq<Property>, key: string, value: int)
    ensures Keys(Overwrite(obj, key, value)) == Keys(obj)
    ensures forall k :: k in Keys(obj) ==> Get(Overwrite(obj, key, value), k) == if k == key then value else Get(obj, k)
  {
    var r := Overwrite(obj, key, value);
    assert Keys(r) == Keys(obj);
    if obj != [] {
      var init := obj[..|obj| - 1];
      OverwriteSpec(init, key, value);
      assert r[..|r| - 1] == Overwrite(init, key, value);
      assert Keys(obj) == Keys(init) + [obj[|obj| - 1].key];
    }
  }

  /**
   * Assigning keeps every other property and its value, gives `key` the value, and
   * moves no key: the key order only grows by `key` at the end when it is new.
   */
  lemma AssignSpec(obj: seq<Property>, key: string, value: int)
    ensures Keys(Assign(obj, key, value)) == if key in Keys(obj) then Keys(obj) else Keys(obj) + [key]
    ensures forall k :: k in Keys(Assign(obj, key, value)) ==>
      Get(Assign(obj, key, value), k) == if k == key then value else Get(obj, k)
  {
    if key in Keys(obj) {
      OverwriteSpec(obj, key, value);
    } else {
      var r := obj + [Property(key, value)];
      assert r[..|r| - 1] == obj;
    }
  }

  /** The `reduce` over the segments, left to right, starting from `{}`: each `acc[field] = direction`. */
  function SortParams(segments: seq<string>): seq<Property> {
    if segments == [] then []
    else
      var last := segments[|segments| - 1];
      Assign(SortParams(segments[..|segments| - 1]), Field(last), Direction(last))
  }

  /** `sortByHandler`: the object, whose key order is the precedence of the sort. */
  function SortByHandler(sortBy: string): seq<Property> {
    SortParams(Split(sortBy, ','))
  }

  /** The field of each segment, in segment order. */
  function FieldList(segments: seq<string>): (fs: seq<string>)
    ensures |fs| == |segments|
    ensures forall i :: 0 <= i < |segments| ==> fs[i] == Field(segments[i])
  {
    if segments == [] then [] else FieldList(segments[..|segments| - 1]) + [Field(segments[|segments| - 1])]
  }

  /** Each distinct string of `xs` once, at the place of its first occurrence. */
  function FirstOccurrences(xs: seq<string>): (r: seq<string>)
    ensures forall x :: x in r <==> x in xs
    ensures Distinct(r)
  {
    if xs == [] then []
    else
      var r := FirstOccurrences(xs[..|xs| - 1]);
      var x := xs[|xs| - 1];
      assert forall y :: y in xs <==> y in xs[..|xs| - 1] || y == x;
      if x in xs[..|xs| - 1] then r else r + [x]
  }

  /** The fields named by any segment. */
  function Fields(segments: seq<string>): set<string> {
    set s | s in segments :: Field(s)
  }

  /** The direction of the last segment naming `field`. */
  function LastDirection(segments: seq<string>, field: string): int
    requires field in Fields(segments)
  {
    var last := segments[|segments| - 1];
    if Field(last) == field then Direction(last)
    else
      assert field in Fields(segments[..|segments| - 1]) by {
        var s :| s in segments && Field(s) == field;
        var k :| 0 <= k < |segments| && segments[k] == s;
        assert segments[..|segments| - 1][k] == s;
      }
      LastDirection(segments[..|segments| - 1], field)
  }

  /** The reduce builds one property per distinct field, in the order the fields are first named. */
  lemma {:induction false} SortParamsKeys(segments: seq<string>)
    ensures Keys(SortParams(segments)) == FirstOccurrences(FieldList(segments))
    decreases |segments|
  {
    if segments != [] {
      var init := segments[..|segments| - 1];
      var last := segments[|segments| - 1];
      SortParamsKeys(init);
      AssignSpec(SortParams(init), Field(last), Direction(last));
      assert FieldList(segments)[..|segments| - 1] == FieldList(init);
    }
  }

  /** Each property's value is the direction of the LAST segment naming its field. */
  lemma {:induction false} SortParamsValues(segments: seq<string>)
    ensures forall f :: f in Keys(SortParams(segments)) ==>
      f in Fields(segments) && Get(SortParams(segments), f) == LastDirection(segments, f)
    decreases |segments|
  {
    if segments != [] {
      var init := segments[..|segments| - 1];
      var last := segments[|segments| - 1];
      var obj := SortParams(init);
      SortParamsValues(init);
      AssignSpec(obj, Field(last), Direction(last));
      assert SortParams(segments) == Assign(obj, Field(last), Direction(last));
      forall f | f in Keys(SortParams(segments))
        ensures f in Fields(segments) && Get(SortParams(segments), f) == LastDirection(segments, f)
      {
        if f == Field(last) {
          assert last in segments;
        } else {
          assert f in Keys(obj);
          assert forall s :: s in init ==> s in segments;
          assert f in Fields(init);
        }
      }
    }
  }

  /** Every value the reduce stores is 1 or -1. */
  lemma {:induction false} SortParamsSigns(segments: seq<string>)
    ensures forall i :: 0 <= i < |SortParams(segments)| ==>
      SortParams(segments)[i].value == 1 || SortParams(segments)[i].value == -1
    decreases |segments|
  {
    if segments != [] {
      SortParamsSigns(segments[..|segments| - 1]);
    }
  }

  lemma {:induction false} LastDirectionCons(head: string, tail: seq<string>, f: string)
    requires f in Fields([head] + tail)
    ensures f in Fields(tail) ==> LastDirection([head] + tail, f) == LastDirection(tail, f)
    ensures f !in Fields(tail) ==> f == Field(head) && LastDirection([head] + tail, f) == Direction(head)
    decreases |tail|
  {
    var segs := [head] + tail;
    if tail == [] {
      assert segs == [head];
    } else {
      var last := tail[|tail| - 1];
      assert segs[|segs| - 1] == last;
      assert segs[..|segs| - 1] == [head] + tail[..|tail| - 1];
      if Field(last) != f {
        assert f in Fields(segs[..|segs| - 1]) by {
          var s :| s in segs && Field(s) == f;
          var k :| 0 <= k < |segs| && segs[k] == s;
          assert k < |segs| - 1;
          assert segs[..|segs| - 1][k] == s;
        }
        if f in Fields(tail) {
          assert f in Fields(tail[..|tail| - 1]) by {
            var s :| s in tail && Field(s) == f;
            var k :| 0 <= k < |tail| && tail[k] == s;
            assert tail[..|tail| - 1][k] == s;
          }
        }
        LastDirectionCons(head, tail[..|tail| - 1], f);
      }
    }
  }

  /** A string is named by the field list exactly when some segment names it. */
  lemma FieldListNames(segments: seq<string>)
    ensures forall f :: f in FieldList(segments) <==> f in Fields(segments)
  {
    forall f | f in Fields(segments)
      ensures f in FieldList(segments)
    {
      var s :| s in segments && Field(s) == f;
      var k :| 0 <= k < |segments| && segments[k] == s;
      assert FieldList(segments)[k] == f;
    }
  }

  /**
   * `sortByHandler(sortBy)` has one property per distinct field of the comma-separated
   * segments, in the order the fields are first named (this order is the sort's
   * precedence), and each value is -1 exactly when the field's LAST segment has order
   * `desc`, 1 otherwise.
   */
  lemma SortByHandlerSpec(sortBy: string)
    ensures Keys(SortByHandler(sortBy)) == FirstOccurrences(FieldList(Split(sortBy, ',')))
    ensures Distinct(Keys(SortByHandler(sortBy)))
    ensures forall f :: f in Keys(SortByHandler(sortBy)) <==> f in Fields(Split(sortBy, ','))
    ensures forall f :: f in Keys(SortByHandler(sortBy)) ==>
      Get(SortByHandler(sortBy), f) == LastDirection(Split(sortBy, ','), f)
  {
    SortParamsKeys(Split(sortBy, ','));
    SortParamsValues(Split(sortBy, ','));
    FieldListNames(Split(sortBy, ','));
  }

  /** A segment without `:` or with any order other than exactly `desc` sorts ascending. */
  lemma DirectionOfSegment(field: string, order: string)
    requires ':' !in field && ':' !in order
    ensures Field(field) == field && Direction(field) == 1
    ensures Field(field + ":" + order) == field
    ensures Direction(field + ":" + order) == (if order == "desc" then -1 else 1)
  {
    SplitNoSep(field, ':');
    SplitJoin([field, order], ':');
    assert Join([field, order], ':') == field + ":" + order by {
      assert Join([field, order][1..], ':') == order;
    }
  }

  /**
   * Two segments: a second segment naming the same field overrides the first one's
   * direction in place; otherwise the second field comes after the first.
   */
  lemma SortByHandlerTwo(first: string, second: string)
    requires ',' !in first && ',' !in second
    ensures SortByHandler(first + "," + second)
      == if Field(first) == Field(second) then [Property(Field(first), Direction(second))]
         else [Property(Field(first), Direction(first)), Property(Field(second), Direction(second))]
  {
    var segs := [first, second];
    assert Join(segs, ',') == first + "," + second by {
      assert segs[1..] == [second];
    }
    SplitJoin(segs, ',');
    assert segs[..1] == [first];
    assert [first][..0] == [];
    var one := [Property(Field(first), Direction(first))];
    assert SortParams([first]) == one;
    assert one[..0] == [];
    assert Keys(one) == [Field(first)];
  }

  /** The key order matters: the same two segments in the other order give the other precedence. */
  lemma SortByHandlerOrder()
    ensures SortByHandler("a:desc,b") == [Property("a", -1), Property("b", 1)]
    ensures SortByHandler("b,a:desc") == [Property("b", 1), Property("a", -1)]
  {
    DirectionOfSegment("a", "desc");
    DirectionOfSegment("b", "");
    assert "a:desc" == "a" + ":" + "desc";
    assert "a:desc,b" == "a:desc" + "," + "b";
    assert "b,a:desc" == "b" + "," + "a:desc";
    SortByHandlerTwo("a:desc", "b");
    SortByHandlerTwo("b", "a:desc");
  }
}
