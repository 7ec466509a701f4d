/** `GET /api/disks`: the `lsblk -o NAME,SIZE,TYPE,MOUNTPOINT -J` result,
    filtered to whole physical disks. */
module Disks {
  import opened Base

  /** One entry of `blockdevices`; partitions of a disk sit in its `children`
      and travel with it untouched. */
  datatype BlockDevice = BlockDevice(
    name: string,
    size: string,
    kind: string,                  // the `type` column
    mountpoint: Option<string>,
    children: seq<BlockDevice>)

  /** The filter callback: a disk, and neither a loop device nor an optical drive. */
  predicate IsListedDisk(d: BlockDevice) {
    d.kind == "disk" && !StartsWith(d.name, "loop") && !StartsWith(d.name, "sr")
  }

  /** `xs` occurs in `ys` in order, possibly with gaps. */
  predicate IsSubsequence<T(==)>(xs: seq<T>, ys: seq<T>)
    decreases |ys|
  {
    |xs| == 0 ||
    (|ys| > 0 && (if xs[0] == ys[0] then IsSubsequence(xs[1..], ys[1..]) else IsSubsequence(xs, ys[1..])))
  }

  /** `data.blockdevices.filter(…)`: the listed disks, in the order lsblk gave them,
      each as many times as it occurs there. */
  function FilterDisks(devices: seq<BlockDevice>): (disks: seq<BlockDevice>)
    ensures IsSubsequence(disks, devices)
    ensures forall d :: d in disks ==> IsListedDisk(d)
    ensures forall d {:trigger multiset(disks)[d]} ::
      multiset(disks)[d] == (if IsListedDisk(d) then multiset(devices)[d] else 0)
    decreases |devices|
  {
    if |devices| == 0 then []
    else
      var rest := FilterDisks(devices[1..]);
      assert devices == [devices[0]] + devices[1..];
      if IsListedDisk(devices[0]) then
        assert ([devices[0]] + rest)[1..] == rest;
        [devices[0]] + rest
      else
        assert IsSubsequence(rest, devices[1..]);
        SubsequenceDropHead(rest, devices);
        rest
  }

  lemma SubsequenceDropHead<T>(xs: seq<T>, ys: seq<T>)
    requires |ys| > 0 && IsSubsequence(xs, ys[1..])
    requires forall x :: x in xs ==> x != ys[0]
    ensures IsSubsequence(xs, ys)
  {
    if |xs| > 0 {
      assert xs[0] in xs;
    }
  }

  /** Filtering distributes over concatenation, so the relative order of the
      kept entries is exactly their order in the input. */
  lemma {:induction false} FilterDisksAppend(a: seq<BlockDevice>, b: seq<BlockDevice>)
    ensures FilterDisks(a + b) == FilterDisks(a) + FilterDisks(b)
    decreases |a|
  {
    if |a| > 0 {
      assert (a + b)[0] == a[0];
      assert (a + b)[1..] == a[1..] + b;
      FilterDisksAppend(a[1..], b);
    } else {
      assert a + b == b;
    }
  }

  /** A loop device and an optical drive are dropped around a disk. */
  lemma FilterExample()
    ensures var sda := BlockDevice("sda", "931.5G", "disk", None, []);
      FilterDisks([BlockDevice("loop0", "63.3M", "loop", Some("/snap/core"), []), sda,
                   BlockDevice("sr0", "1024M", "rom", None, [])]) == [sda]
  {
    var loop0 := BlockDevice("loop0", "63.3M", "loop", Some("/snap/core"), []);
    var sda := BlockDevice("sda", "931.5G", "disk", None, []);
    var sr0 := BlockDevice("sr0", "1024M", "rom", None, []);
    assert IsListedDisk(sda) by {
      assert "sda"[..2][1] == 'd';
    }
    assert FilterDisks([sda, sr0]) == [sda] by {
      FilterSingle(sda);
      FilterSingle(sr0);
      FilterDisksAppend([sda], [sr0]);
      assert [sda, sr0] == [sda] + [sr0];
    }
    assert [loop0, sda, sr0][1..] == [sda, sr0];
  }

  /** The name tests reject entries lsblk reports as `disk` too: a loop
      device or an optical drive typed `disk` is still dropped. */
  lemma FilterDropsLoopAndSrNamedDisks()
    ensures FilterDisks([BlockDevice("loop1", "4G", "disk", None, [])]) == []
    ensures FilterDisks([BlockDevice("sr1", "1024M", "disk", None, [])]) == []
    ensures FilterDisks([BlockDevice("nvme0n1", "476.9G", "disk", None, [])])
         == [BlockDevice("nvme0n1", "476.9G", "disk", None, [])]
  {
    FilterSingle(BlockDevice("loop1", "4G", "disk", None, []));
    assert "loop1"[..4] == "loop";
    FilterSingle(BlockDevice("sr1", "1024M", "disk", None, []));
    assert "sr1"[..2] == "sr";
    var nvme := BlockDevice("nvme0n1", "476.9G", "disk", None, []);
    FilterSingle(nvme);
    assert IsListedDisk(nvme) by {
      assert "nvme0n1"[..2][0] == 'n';
      assert "nvme0n1"[..4][0] == 'n';
    }
  }

  lemma FilterSingle(d: BlockDevice)
    ensures FilterDisks([d]) == if IsListedDisk(d) then [d] else []
  {
    assert [d][1..] == [];
  }

  /** What lsblk gave back, as far as the handler can tell. */
  datatype LsblkOutput =
    | ToolFailed                              // `exec` reported an error
    | Unparseable                             // stdout is not JSON, or has no `blockdevices` array
    | Listing(blockdevices: seq<BlockDevice>)

  datatype DisksReply =
    | DiskList(disks: seq<BlockDevice>)   // 200 `{ disks }`
    | ServerError(error: string)          // 500 `{ error }`

  function ListDisks(out: LsblkOutput): (reply: DisksReply)
    ensures reply.ServerError? <==> !out.Listing?
    ensures out.ToolFailed? ==> reply == ServerError("lsblk failed")
    ensures out.Unparseable? ==> reply == ServerError("parse error")
    ensures out.Listing? ==> reply.disks == FilterDisks(out.blockdevices)
  {
    match out
    case ToolFailed => ServerError("lsblk failed")
    case Unparseable => ServerError("parse error")
    case Listing(devices) => DiskList(FilterDisks(devices))
  }
}
