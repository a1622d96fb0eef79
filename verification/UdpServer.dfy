/** The ingestion pipeline of one validated datagram: register the channel, update its state, buffer its packets. */
module UdpServer {
  import opened PacketBuffer
  import opened SequenceTracking
  import State = ChannelState

  class UDPIngestionServer {
    const stateManager: State.StateManager
    const bufferManager: BufferManager
    const flusher: BackgroundFlusher

    constructor (stateManager: State.StateManager, bufferManager: BufferManager, flusher: BackgroundFlusher)
      requires bufferManager.redis == flusher.redis
      ensures this.stateManager == stateManager && this.bufferManager == bufferManager && this.flusher == flusher
      ensures Connected()
    {
      this.stateManager, this.bufferManager, this.flusher := stateManager, bufferManager, flusher;
    }

    /** The buffer manager fills the lists that the flusher drains. */
    predicate Connected() { bufferManager.redis == flusher.redis }

    /** The flusher visits every list that holds something. */
    ghost predicate AllWatched()
      reads flusher, flusher.redis
    {
      forall ch :: flusher.redis.List(ch) != [] ==> ch in flusher.activeChannels
    }

    /** Every batch counts for drops and activity; its packets follow, and are never left where no flush looks. */
    method HandleBatch(batch: Batch, sequence: int)
      requires Connected()
      modifies flusher`activeChannels, stateManager.redis`keys, stateManager.tracker, bufferManager.redis
      ensures flusher.activeChannels == old(flusher.activeChannels) + {batch.channelId}
      ensures var o := Process(old(stateManager.tracker.Last(batch.channelId)), sequence);
              && stateManager.tracker.stored == old(stateManager.tracker.stored)[batch.channelId := o.last]
              && o.drops >= 0
              && stateManager.redis.keys == State.HashAfterBatch(old(stateManager.redis.keys), stateManager.redis.now,
                   State.STATE_KEY_TTL, batch.channelId, o.drops, |batch.packets| > 0)
      ensures flusher.redis.List(batch.channelId)
              == Pushed(old(flusher.redis.List(batch.channelId)), Records(batch), bufferManager.maxLen)
      ensures forall ch :: ch != batch.channelId ==> flusher.redis.List(ch) == old(flusher.redis.List(ch))
      ensures old(AllWatched()) ==> AllWatched()
    {
      flusher.RegisterChannel(batch.channelId);
      stateManager.ProcessBatch(batch.channelId, sequence, |batch.packets|);
      bufferManager.PushPackets(batch);
    }
  }
}
