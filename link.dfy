/** The `link` neighbour table of Code/src/link.cpp: for every node, one entry
  * per neighbour slot holding the neighbour's index, a colour, a stiffness and a
  * damping, created by `init` and read and written one field at a time.
  *
  * The number of neighbour slots (`NEIGHBOURS_NUM`) and the default entry that
  * `init_int1`, `init_color4` and `init_float1` give are defined outside this
  * file, so both are parameters here. Floating-point and colour values are
  * opaque element types `F` and `C`.
  */
module Link {
  import opened Handles

  /** One (node, neighbour) slot: the fields `index`, `color`, `stiffness` and
    * `damping` of `link_structure` at one neighbour id. */
  datatype LinkEntry<F, C> = LinkEntry(index: int, color: C, stiffness: F, damping: F)

  class Link<F(0), C(0)> {
    const neighboursNum: nat
    var linkSize: nat
    var linkData: array2<LinkEntry<F, C>>
    var linkBuffer: Option<MemObject>
    var openclContext: nat

    /** The table has one row per node and one column per neighbour slot. */
    predicate Valid()
      reads this
    {
      linkData.Length0 == linkSize && linkData.Length1 == neighboursNum
    }

    /** `link::link` does nothing; the table is built by `Init`. Before that the
      * model holds an empty table and no buffer. */
    constructor(neighbours: nat)
      ensures Valid() && neighboursNum == neighbours
      ensures linkSize == 0 && linkBuffer == None
    {
      neighboursNum := neighbours;
      linkSize := 0;
      linkData := new LinkEntry<F, C>[0, neighbours];
      linkBuffer := None;
      openclContext := 0;
    }

    /** `init`: records the size and the context, allocates `size` rows and gives
      * every (node, neighbour) slot the default entry. Then it makes the OpenCL
      * buffer: one shared with a new vertex buffer when graphics are compiled in,
      * a copy of the table otherwise. `created` is what the creating call returns,
      * `None` standing for NULL; the buffer is NULL until that call succeeds. */
    method Init(context: nat, size: nat, blank: LinkEntry<F, C>, useGraphics: bool, newVbo: nat, created: Option<nat>)
      modifies this
      ensures Valid() && linkSize == size && fresh(linkData)
      ensures openclContext == context
      ensures forall n, id :: 0 <= n < linkSize && 0 <= id < neighboursNum ==> linkData[n, id] == blank
      ensures created.None? ==> linkBuffer == None
      ensures created.Some? ==>
                linkBuffer == Some(if useGraphics then SharedWithGl(created.value, newVbo) else DeviceBuffer(created.value))
    {
      var table := new LinkEntry<F, C>[size, neighboursNum];
      for node := 0 to size
        invariant forall n, id :: 0 <= n < node && 0 <= id < neighboursNum ==> table[n, id] == blank
      {
        for id := 0 to neighboursNum
          invariant forall n, i :: 0 <= n < node && 0 <= i < neighboursNum ==> table[n, i] == blank
          invariant forall i :: 0 <= i < id ==> table[node, i] == blank
        {
          table[node, id] := blank;
        }
      }
      linkSize := size;
      linkBuffer := None;
      openclContext := context;
      linkData := table;
      if created.Some? {
        linkBuffer := Some(if useGraphics then SharedWithGl(created.value, newVbo) else DeviceBuffer(created.value));
      }
    }

    /** `get_neighbour_index`: the neighbour index stored at (node, id). */
    function NeighbourIndex(node: nat, id: nat): int
      requires Valid() && node < linkSize && id < neighboursNum
      reads this, linkData
    {
      linkData[node, id].index
    }

    /** `get_stiffness`: the stiffness stored at (node, id). */
    function Stiffness(node: nat, id: nat): F
      requires Valid() && node < linkSize && id < neighboursNum
      reads this, linkData
    {
      linkData[node, id].stiffness
    }

    /** `get_damping`: the damping stored at (node, id). */
    function Damping(node: nat, id: nat): F
      requires Valid() && node < linkSize && id < neighboursNum
      reads this, linkData
    {
      linkData[node, id].damping
    }

    /** Every slot other than (node, id) holds what it held before. */
    twostate predicate OthersUnchanged(node: nat, id: nat)
      reads this, linkData
    {
      && Valid()
      && old(linkData) == linkData && old(linkSize) == linkSize
      && forall n, i :: 0 <= n < linkSize && 0 <= i < neighboursNum && (n != node || i != id) ==>
           linkData[n, i] == old(linkData[n, i])
    }

    /** `set_neighbour_index`: only the index field of slot (node, id) changes, and
      * reading it back gives the stored value. */
    method SetNeighbourIndex(node: nat, neighbourIndex: int, id: nat)
      requires Valid() && node < linkSize && id < neighboursNum
      modifies linkData
      ensures OthersUnchanged(node, id)
      ensures linkData[node, id] == old(linkData[node, id]).(index := neighbourIndex)
      ensures NeighbourIndex(node, id) == neighbourIndex
    {
      linkData[node, id] := linkData[node, id].(index := neighbourIndex);
    }

    /** `set_stiffness`: only the stiffness field of slot (node, id) changes, and
      * reading it back gives the stored value. */
    method SetStiffness(node: nat, value: F, id: nat)
      requires Valid() && node < linkSize && id < neighboursNum
      modifies linkData
      ensures OthersUnchanged(node, id)
      ensures linkData[node, id] == old(linkData[node, id]).(stiffness := value)
      ensures Stiffness(node, id) == value
    {
      linkData[node, id] := linkData[node, id].(stiffness := value);
    }

    /** `set_damping`: only the damping field of slot (node, id) changes, and
      * reading it back gives the stored value. */
    method SetDamping(node: nat, value: F, id: nat)
      requires Valid() && node < linkSize && id < neighboursNum
      modifies linkData
      ensures OthersUnchanged(node, id)
      ensures linkData[node, id] == old(linkData[node, id]).(damping := value)
      ensures Damping(node, id) == value
    {
      linkData[node, id] := linkData[node, id].(damping := value);
    }
  }
}
