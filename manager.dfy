/**
 * The POC manager (src/pocs/manager.rs). It keeps its own stub registry,
 * which lists two fixed names. `list` turns each name into a `PocInfo`
 * with placeholder type and description, and `search` keeps those whose
 * name contains the keyword (case-sensitively), in order.
 */
module Manager {
  import opened Text
  import opened Sequences

  /** `PocInfo` */
  datatype PocInfo = PocInfo(name: string, vulnType: string, description: string)

  const UnknownType: string := "未知"
  const NoDescription: string := "暂无描述"

  /** The stub registry's `list`: the names are fixed. */
  const RegistryNames: seq<string> := ["example", "redis"]

  /** The entry `list` makes for one registry name. */
  function InfoOf(name: string): PocInfo {
    PocInfo(name, UnknownType, NoDescription)
  }

  /** The entries for `names`, one per name, in the same order. */
  function InfosOf(names: seq<string>): (infos: seq<PocInfo>)
    ensures |infos| == |names|
    ensures forall i :: 0 <= i < |names| ==> infos[i].name == names[i]
    ensures forall p :: p in infos ==> p.vulnType == UnknownType && p.description == NoDescription
  {
    seq(|names|, i requires 0 <= i < |names| => InfoOf(names[i]))
  }

  /** `PocManager::list` */
  function List(): (infos: seq<PocInfo>)
    ensures |infos| == |RegistryNames|
    ensures forall i :: 0 <= i < |infos| ==> infos[i] == InfoOf(RegistryNames[i])
  {
    InfosOf(RegistryNames)
  }

  /**
   * `filter(|poc| poc.name.contains(keyword))`: the entries whose name
   * contains `keyword`, in their original order and each as often as before.
   */
  function FilterByName(infos: seq<PocInfo>, keyword: string): (found: seq<PocInfo>)
    ensures forall p :: p in found <==> p in infos && Contains(p.name, keyword)
    ensures IsSubsequence(found, infos)
  {
    if infos == [] then []
    else
      var rest := FilterByName(infos[1..], keyword);
      assert forall p :: p in infos <==> p == infos[0] || p in infos[1..];
      if Contains(infos[0].name, keyword) then
        assert ([infos[0]] + rest)[1..] == rest;
        [infos[0]] + rest
      else
        rest
  }

  /** `PocManager::search` */
  function Search(keyword: string): (found: seq<PocInfo>)
    ensures forall p :: p in found <==> p in List() && Contains(p.name, keyword)
    ensures IsSubsequence(found, List())
  {
    FilterByName(List(), keyword)
  }

  /** Filtering by a keyword every name contains keeps everything. */
  lemma {:induction false} FilterKeepsMatching(infos: seq<PocInfo>, keyword: string)
    requires forall p :: p in infos ==> Contains(p.name, keyword)
    ensures FilterByName(infos, keyword) == infos
  {
    if infos != [] {
      assert infos[0] in infos;
      assert forall p :: p in infos[1..] ==> p in infos;
      FilterKeepsMatching(infos[1..], keyword);
    }
  }

  /** Filtering by a keyword no name contains keeps nothing. */
  lemma {:induction false} FilterDropsMismatching(infos: seq<PocInfo>, keyword: string)
    requires forall p :: p in infos ==> !Contains(p.name, keyword)
    ensures FilterByName(infos, keyword) == []
  {
    if infos != [] {
      assert infos[0] in infos;
      assert forall p :: p in infos[1..] ==> p in infos;
      FilterDropsMismatching(infos[1..], keyword);
    }
  }

  /** Filtering distributes over concatenation, so order is kept. */
  lemma {:induction false} FilterAppend(a: seq<PocInfo>, b: seq<PocInfo>, keyword: string)
    ensures FilterByName(a + b, keyword) == FilterByName(a, keyword) + FilterByName(b, keyword)
  {
    if a != [] {
      var head := if Contains(a[0].name, keyword) then [a[0]] else [];
      assert (a + b)[0] == a[0];
      assert (a + b)[1..] == a[1..] + b;
      assert FilterByName(a + b, keyword) == head + FilterByName(a[1..] + b, keyword);
      assert FilterByName(a, keyword) == head + FilterByName(a[1..], keyword);
      FilterAppend(a[1..], b, keyword);
    } else {
      assert a + b == b;
    }
  }

  /** `search("")` returns the whole list. */
  lemma SearchEmptyKeyword()
    ensures Search("") == List()
  {
    forall p | p in List()
      ensures Contains(p.name, "")
    {
      ContainsEmpty(p.name);
    }
    FilterKeepsMatching(List(), "");
  }

  /** Searching for "redis" finds only the redis entry. */
  lemma SearchRedis()
    ensures Search("redis") == [InfoOf("redis")]
  {
    var example := "example";
    forall i: nat
      ensures !OccursAt(example, "redis", i)
    {
      if i + 5 <= |example| {
        assert example[i..i + 5][0] == example[i];
      }
    }
    assert OccursAt("redis", "redis", 0);
    assert List() == [InfoOf("example")] + [InfoOf("redis")];
    FilterAppend([InfoOf("example")], [InfoOf("redis")], "redis");
  }

  /** `search` never adds or repeats entries. */
  lemma SearchAddsNothing(keyword: string)
    ensures |Search(keyword)| <= |List()|
    ensures forall p :: p in Search(keyword) ==> p in List()
  {
    SubsequenceLength(Search(keyword), List());
    SubsequenceMembers(Search(keyword), List());
  }
}
