/** The callbacks the automation host offers to an entity, recorded as events
    so that the adapters' contracts can say when a watcher is started or
    cancelled and when the entity pushes its state. The host itself (its event
    loop, timers and state machine) is not part of this model. */
module Host {

  datatype Event =
    | TrackTimeInterval(seconds: nat)      // async_track_time_interval: a periodic watcher starts
    | Unsubscribe                          // the watcher's unsubscribe handle is called
    | WriteHaState                         // async_write_ha_state
    | ScheduleUpdateHaState(force: bool)   // schedule_update_ha_state(force)
    | DispatcherSend(signal: string)       // async_dispatcher_send
}
