/** TransferOptions.kt: the transfer configuration, its defaults, and its
    Parcelable form, which carries the thread-pool size only. */
module TransferOptions {
  import opened TransferNetworkConnectionType

  datatype TransferOptions = TransferOptions(transferThreadPoolSize: int, connectionType: ConnectionType)

  /** DEFAULT_THREAD_POOL_SIZE, for the processor count the runtime reports. */
  function DefaultThreadPoolSize(availableProcessors: int): (size: int)
    ensures size % 2 == 0
    ensures availableProcessors >= 1 ==> size >= 4
  {
    2 * (availableProcessors + 1)
  }

  const DefaultTransferConnectionType: ConnectionType := Any

  /** `TransferOptions()` with both defaults. */
  function Defaults(availableProcessors: int): (o: TransferOptions)
    ensures o.connectionType == Any
    ensures o.transferThreadPoolSize == DefaultThreadPoolSize(availableProcessors)
  {
    TransferOptions(DefaultThreadPoolSize(availableProcessors), DefaultTransferConnectionType)
  }

  const DescribeContents := 0

  /** android.os.Parcel reduced to the int slots this class uses; reading past
      the written data yields 0, as Parcel does. */
  class Parcel {
    var data: seq<int>
    var position: nat

    constructor ()
      ensures data == [] && position == 0
    {
      data := [];
      position := 0;
    }

    method WriteInt(v: int)
      modifies this
      ensures data == old(data) + [v] && position == old(position)
    {
      data := data + [v];
    }

    method SetDataPosition(p: nat)
      modifies this
      ensures data == old(data) && position == p
    {
      position := p;
    }

    method ReadInt() returns (v: int)
      modifies this
      ensures v == (if old(position) < |data| then data[old(position)] else 0)
      ensures data == old(data) && position == old(position) + 1
    {
      v := if position < |data| then data[position] else 0;
      position := position + 1;
    }
  }

  /** `writeToParcel`: one int, the pool size. */
  method WriteToParcel(o: TransferOptions, dest: Parcel)
    modifies dest
    ensures dest.data == old(dest.data) + [o.transferThreadPoolSize] && dest.position == old(dest.position)
  {
    dest.WriteInt(o.transferThreadPoolSize);
  }

  /** The `Parcel` constructor: the pool size is read back, the connection
      type takes its default. */
  method FromParcel(source: Parcel) returns (o: TransferOptions)
    modifies source
    ensures source.data == old(source.data) && source.position == old(source.position) + 1
    ensures o.connectionType == DefaultTransferConnectionType
    ensures o.transferThreadPoolSize == (if old(source.position) < |source.data| then source.data[old(source.position)] else 0)
  {
    var size := source.ReadInt();
    o := TransferOptions(size, DefaultTransferConnectionType);
  }

  /** Writing to a fresh parcel and reading back keeps the pool size and
      resets the connection type to ANY; the round trip is exact iff the
      connection type already was ANY. */
  method ParcelRoundTrip(o: TransferOptions) returns (back: TransferOptions)
    ensures back.transferThreadPoolSize == o.transferThreadPoolSize
    ensures back.connectionType == Any
    ensures back == o <==> o.connectionType == Any
  {
    var parcel := new Parcel();
    WriteToParcel(o, parcel);
    assert parcel.data == [o.transferThreadPoolSize];
    parcel.SetDataPosition(0);
    back := FromParcel(parcel);
  }
}
