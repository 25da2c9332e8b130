/**
 * The Flock state machine: the enumerations and the five decision tables of the
 * generated header.  The four tables over (state, event, status) stay separate
 * functions, as in the program, so that their agreement is something to prove.
 */
module Fsm {

  newtype State = x: int | 0 <= x <= 29

  const NullState: State := 0
  const Ready: State := 1
  const AnnouncingNewFile: State := 2
  const AnnouncingNewFileWithMore: State := 3
  const AnnouncingFileMetadataChange: State := 4
  const AnnouncingFileMetadataChangeWithMore: State := 5
  const SendingNewFileMetadata: State := 6
  const SendingNewFileMetadataWithMore: State := 7
  const SendingFileMetadataChange: State := 8
  const SendingFileMetadataChangeWithMore: State := 9
  const SendingNewFile: State := 10
  const SendingNewFileWithMoreAlpha: State := 11
  const SendingNewFileWithMoreBeta: State := 12
  const AcknowledgingNewFile: State := 13
  const AcknowledgingNewFileWithMore: State := 14
  const AcknowledgingFileMetadataChange: State := 15
  const AcknowledgingFileMetadataChangeWithMore: State := 16
  const PromotingNewFileMetadata: State := 17
  const PromotingNewFileMetadataWithMore: State := 18
  const ReceivingFileMetadataChange: State := 19
  const ReceivingFileMetadataChangeWithMore: State := 20
  const SendingFakeFile: State := 21
  const SendingFakeFileWithMoreAlpha: State := 22
  const SendingFakeFileWithMoreBeta: State := 23
  const BroadcastingAllReceived: State := 24
  const BroadcastingAllReceivedWithMoreAlpha: State := 25
  const BroadcastingAllReceivedWithMoreBeta: State := 26
  const BroadcastingAllMetadataReceived: State := 27
  const SyncingStop: State := 28
  const Exit: State := 29

  newtype Status = x: int | 0 <= x <= 500

  const NullStatus: Status := 0
  const S100: Status := 100
  const S110: Status := 110
  const S111: Status := 111
  const S112: Status := 112
  const S113: Status := 113
  const S114: Status := 114
  const S115: Status := 115
  const S116: Status := 116
  const S117: Status := 117
  const S120: Status := 120
  const S121: Status := 121
  const S122: Status := 122
  const S124: Status := 124
  const S125: Status := 125
  const S126: Status := 126
  const S130: Status := 130
  const S131: Status := 131
  const S132: Status := 132
  const S134: Status := 134
  const S135: Status := 135
  const S136: Status := 136
  const S140: Status := 140
  const S141: Status := 141
  const S142: Status := 142
  const S145: Status := 145
  const S146: Status := 146
  const S147: Status := 147
  const S150: Status := 150
  const S155: Status := 155
  const S156: Status := 156
  const S160: Status := 160
  const S161: Status := 161
  const S162: Status := 162
  const S164: Status := 164
  const S165: Status := 165
  const S166: Status := 166
  const S170: Status := 170
  const S171: Status := 171
  const S172: Status := 172
  const S173: Status := 173
  const S174: Status := 174
  const S175: Status := 175
  const S177: Status := 177
  const S178: Status := 178
  const S200: Status := 200
  const S210: Status := 210
  const S300: Status := 300
  const S301: Status := 301
  const S304: Status := 304
  const S320: Status := 320
  const S324: Status := 324
  const S410: Status := 410
  const S500: Status := 500

  newtype Event = x: int | 0 <= x <= 19

  const NullEvent: Event := 0
  const NewLocalFile: Event := 1
  const NewLocalFileWithMore: Event := 2
  const LocalFileMetadataChange: Event := 3
  const LocalFileMetadataChangeWithMore: Event := 4
  const ReceivedHeartbeat: Event := 5
  const AllNodesReplied: Event := 6
  const NewLocalFileReportedTwice: Event := 7
  const TimingOffsetElapsed: Event := 8
  const AllNodesHaveFile: Event := 9
  const AllNodesHaveAllFiles: Event := 10
  const AllNodesHaveAllMetadataChangesWithMore: Event := 11
  const FileSendTick: Event := 12
  const ReceivedFakeFileData: Event := 13
  const NodeOnlySendsHeartbeats: Event := 14
  const AllNodesHaveFileWithMore: Event := 15
  const AllMetadataReceived: Event := 16
  const ReceivedFileData: Event := 17
  const AllDataReceived: Event := 18
  const Interrupt: Event := 19

  newtype Action = x: int | 0 <= x <= 7

  const NullAction: Action := 0
  const SendHeartbeat: Action := 1
  const AddNewFileToQueue: Action := 2
  const SendFileData: Action := 3
  const Ignore: Action := 4
  const StoreFileData: Action := 5
  const SendFakeFileData: Action := 6
  const ExitProgram: Action := 7

  /** The event a status code stands for. */
  function EventOf(status: Status): Event {
    if status == S100 || status == S110 || status == S111 || status == S114 || status == S115 || status == S116
            || status == S117 || status == S120 || status == S121 || status == S124 || status == S125
            || status == S130 || status == S131 || status == S134 || status == S135 || status == S140
            || status == S141 || status == S145 || status == S147 || status == S150 || status == S155
            || status == S160 || status == S161 || status == S164 || status == S165 || status == S170
            || status == S171 || status == S174 || status == S175 || status == S410 then ReceivedHeartbeat
    else if status == S112 then FileSendTick
    else if status == S113 then AllDataReceived
    else if status == S122 || status == S126 || status == S162 || status == S166 then AllNodesReplied
    else if status == S132 || status == S136 || status == S156 then TimingOffsetElapsed
    else if status == S142 || status == S172 then AllNodesHaveFile
    else if status == S146 then AllNodesHaveFileWithMore
    else if status == S173 then AllMetadataReceived
    else if status == S177 || status == S178 then AllNodesHaveAllMetadataChangesWithMore
    else if status == S200 then ReceivedFileData
    else if status == S210 then ReceivedFakeFileData
    else if status == S300 then NewLocalFile
    else if status == S301 then NewLocalFileReportedTwice
    else if status == S304 then NewLocalFileWithMore
    else if status == S320 then LocalFileMetadataChange
    else if status == S324 then LocalFileMetadataChangeWithMore
    else if status == S500 then Interrupt
    else NullEvent
  }

  /** Whether (event, status) is handled in this state. */
  predicate CheckEvent(state: State, event: Event, status: Status) {
    if state == Ready then
      (
      || (event == NewLocalFile && status == S300)
      || (event == NewLocalFileWithMore && status == S304)
      || (event == LocalFileMetadataChange && status == S320)
      || (event == LocalFileMetadataChangeWithMore && status == S324)
      || (event == ReceivedHeartbeat && (status == S100 || status == S120 || status == S124 || status == S160
            || status == S164 || status == S150))
      || (event == Interrupt && status == S500)
      )
    else if state == AnnouncingNewFile then
      (
      || (event == ReceivedHeartbeat && status == S121)
      || (event == AllNodesReplied && status == S122)
      || (event == NewLocalFile && status == S300)
      || (event == NewLocalFileReportedTwice && status == S301)
      || (event == NewLocalFileWithMore && status == S304)
      || (event == LocalFileMetadataChange && status == S320)
      || (event == LocalFileMetadataChangeWithMore && status == S324)
      || (event == Interrupt && status == S500)
      )
    else if state == AnnouncingNewFileWithMore then
      (
      || (event == ReceivedHeartbeat && status == S125)
      || (event == AllNodesReplied && status == S126)
      || (event == NewLocalFile && status == S300)
      || (event == NewLocalFileWithMore && status == S304)
      || (event == LocalFileMetadataChange && status == S320)
      || (event == LocalFileMetadataChangeWithMore && status == S324)
      || (event == Interrupt && status == S500)
      )
    else if state == AnnouncingFileMetadataChange then
      (
      || (event == ReceivedHeartbeat && status == S161)
      || (event == AllNodesReplied && status == S162)
      || (event == NewLocalFile && status == S300)
      || (event == NewLocalFileWithMore && status == S304)
      || (event == LocalFileMetadataChange && status == S320)
      || (event == LocalFileMetadataChangeWithMore && status == S324)
      || (event == Interrupt && status == S500)
      )
    else if state == AnnouncingFileMetadataChangeWithMore then
      (
      || (event == ReceivedHeartbeat && status == S165)
      || (event == AllNodesReplied && status == S166)
      || (event == NewLocalFile && status == S300)
      || (event == NewLocalFileWithMore && status == S304)
      || (event == LocalFileMetadataChange && status == S320)
      || (event == LocalFileMetadataChangeWithMore && status == S324)
      || (event == Interrupt && status == S500)
      )
    else if state == SendingNewFileMetadata then
      (
      || (event == ReceivedHeartbeat && status == S131)
      || (event == TimingOffsetElapsed && status == S132)
      || (event == NewLocalFile && status == S300)
      || (event == NewLocalFileWithMore && status == S304)
      || (event == LocalFileMetadataChange && status == S320)
      || (event == LocalFileMetadataChangeWithMore && status == S324)
      || (event == Interrupt && status == S500)
      )
    else if state == SendingNewFileMetadataWithMore then
      (
      || (event == ReceivedHeartbeat && status == S135)
      || (event == TimingOffsetElapsed && status == S132)
      || (event == NewLocalFile && status == S300)
      || (event == NewLocalFileWithMore && status == S304)
      || (event == LocalFileMetadataChange && status == S320)
      || (event == LocalFileMetadataChangeWithMore && status == S324)
      || (event == Interrupt && status == S500)
      )
    else if state == SendingFileMetadataChange then
      (
      || (event == ReceivedHeartbeat && (status == S171 || status == S141))
      || (event == AllNodesHaveFile && status == S172)
      || (event == NewLocalFile && status == S300)
      || (event == NewLocalFileWithMore && status == S304)
      || (event == LocalFileMetadataChange && status == S320)
      || (event == LocalFileMetadataChangeWithMore && status == S324)
      || (event == Interrupt && status == S500)
      )
    else if state == SendingFileMetadataChangeWithMore then
      (
      || (event == ReceivedHeartbeat && (status == S175 || status == S141))
      || (event == AllNodesHaveAllFiles && status == S172)
      || (event == AllNodesHaveAllMetadataChangesWithMore && (status == S177 || status == S178))
      || (event == NewLocalFile && status == S300)
      || (event == NewLocalFileWithMore && status == S304)
      || (event == LocalFileMetadataChange && status == S320)
      || (event == LocalFileMetadataChangeWithMore && status == S324)
      || (event == Interrupt && status == S500)
      )
    else if state == SendingNewFile then
      (
      || (event == FileSendTick && status == S112)
      || (event == ReceivedHeartbeat && (status == S111 || status == S140 || status == S410))
      || (event == ReceivedFakeFileData && status == S210)
      || (event == AllNodesHaveFile && status == S142)
      || (event == NewLocalFile && status == S300)
      || (event == NewLocalFileWithMore && status == S304)
      || (event == LocalFileMetadataChange && status == S320)
      || (event == LocalFileMetadataChangeWithMore && status == S324)
      || (event == NodeOnlySendsHeartbeats && status == S100)
      || (event == Interrupt && status == S500)
      )
    else if state == SendingNewFileWithMoreAlpha then
      (
      || (event == FileSendTick && status == S112)
      || (event == ReceivedHeartbeat && (status == S115 || status == S140 || status == S410))
      || (event == ReceivedFakeFileData && status == S210)
      || (event == AllNodesHaveFile && status == S142)
      || (event == AllNodesHaveFileWithMore && status == S146)
      || (event == NewLocalFile && status == S300)
      || (event == NewLocalFileWithMore && status == S304)
      || (event == LocalFileMetadataChange && status == S320)
      || (event == LocalFileMetadataChangeWithMore && status == S324)
      || (event == NodeOnlySendsHeartbeats && status == S100)
      || (event == Interrupt && status == S500)
      )
    else if state == SendingNewFileWithMoreBeta then
      (
      || (event == FileSendTick && status == S112)
      || (event == ReceivedHeartbeat && (status == S115 || status == S140 || status == S410))
      || (event == ReceivedFakeFileData && status == S210)
      || (event == AllNodesHaveFile && status == S142)
      || (event == AllNodesHaveFileWithMore && status == S146)
      || (event == NewLocalFile && status == S300)
      || (event == NewLocalFileWithMore && status == S304)
      || (event == LocalFileMetadataChange && status == S320)
      || (event == LocalFileMetadataChangeWithMore && status == S324)
      || (event == NodeOnlySendsHeartbeats && status == S100)
      || (event == Interrupt && status == S500)
      )
    else if state == AcknowledgingNewFile then
      (
      || (event == ReceivedHeartbeat && (status == S130 || status == S120 || status == S121 || status == S124))
      || (event == NewLocalFile && status == S300)
      || (event == NewLocalFileWithMore && status == S304)
      || (event == LocalFileMetadataChange && status == S320)
      || (event == LocalFileMetadataChangeWithMore && status == S324)
      || (event == Interrupt && status == S500)
      )
    else if state == AcknowledgingNewFileWithMore then
      (
      || (event == ReceivedHeartbeat && (status == S134 || status == S124 || status == S125))
      || (event == NewLocalFile && status == S300)
      || (event == NewLocalFileWithMore && status == S304)
      || (event == LocalFileMetadataChange && status == S320)
      || (event == LocalFileMetadataChangeWithMore && status == S324)
      || (event == Interrupt && status == S500)
      )
    else if state == AcknowledgingFileMetadataChange then
      (
      || (event == ReceivedHeartbeat && (status == S170 || status == S160 || status == S161 || status == S164))
      || (event == NewLocalFile && (status == S300 || status == S320))
      || (event == NewLocalFileWithMore && (status == S304 || status == S324))
      || (event == Interrupt && status == S500)
      )
    else if state == AcknowledgingFileMetadataChangeWithMore then
      (
      || (event == ReceivedHeartbeat && (status == S174 || status == S164 || status == S165))
      || (event == NewLocalFile && (status == S300 || status == S320))
      || (event == NewLocalFileWithMore && (status == S304 || status == S324))
      || (event == Interrupt && status == S500)
      )
    else if state == PromotingNewFileMetadata then
      (
      || (event == ReceivedHeartbeat && (status == S130 || status == S131 || status == S134))
      || (event == TimingOffsetElapsed && status == S132)
      || (event == NewLocalFile && (status == S300 || status == S320))
      || (event == NewLocalFileWithMore && (status == S304 || status == S324))
      || (event == Interrupt && status == S500)
      )
    else if state == PromotingNewFileMetadataWithMore then
      (
      || (event == ReceivedHeartbeat && (status == S134 || status == S135))
      || (event == TimingOffsetElapsed && status == S136)
      || (event == NewLocalFile && (status == S300 || status == S320))
      || (event == NewLocalFileWithMore && (status == S304 || status == S324))
      || (event == Interrupt && status == S500)
      )
    else if state == ReceivingFileMetadataChange then
      (
      || (event == ReceivedHeartbeat && (status == S170 || status == S171 || status == S175 || status == S141))
      || (event == AllMetadataReceived && status == S173)
      || (event == NewLocalFile && (status == S300 || status == S320))
      || (event == NewLocalFileWithMore && (status == S304 || status == S324))
      || (event == Interrupt && status == S500)
      )
    else if state == ReceivingFileMetadataChangeWithMore then
      (
      || (event == ReceivedHeartbeat && (status == S174 || status == S175 || status == S141))
      || (event == AllMetadataReceived && status == S173)
      || (event == NewLocalFile && (status == S300 || status == S320))
      || (event == NewLocalFileWithMore && (status == S304 || status == S324))
      || (event == Interrupt && status == S500)
      )
    else if state == SendingFakeFile then
      (
      || (event == FileSendTick && status == S112)
      || (event == ReceivedHeartbeat && (status == S110 || status == S111 || status == S140 || status == S410))
      || (event == ReceivedFileData && status == S200)
      || (event == AllDataReceived && status == S113)
      || (event == NewLocalFile && (status == S300 || status == S320))
      || (event == NewLocalFileWithMore && (status == S304 || status == S324))
      || (event == NodeOnlySendsHeartbeats && status == S100)
      || (event == Interrupt && status == S500)
      )
    else if state == SendingFakeFileWithMoreAlpha then
      (
      || (event == FileSendTick && status == S112)
      || (event == ReceivedHeartbeat && (status == S114 || status == S115 || status == S145 || status == S410))
      || (event == ReceivedFileData && status == S200)
      || (event == AllDataReceived && status == S113)
      || (event == NewLocalFile && (status == S300 || status == S320))
      || (event == NewLocalFileWithMore && (status == S304 || status == S324))
      || (event == NodeOnlySendsHeartbeats && status == S100)
      || (event == Interrupt && status == S500)
      )
    else if state == SendingFakeFileWithMoreBeta then
      (
      || (event == FileSendTick && status == S112)
      || (event == ReceivedHeartbeat && (status == S114 || status == S117 || status == S145 || status == S410))
      || (event == ReceivedFileData && status == S200)
      || (event == AllDataReceived && status == S113)
      || (event == NewLocalFile && (status == S300 || status == S320))
      || (event == NewLocalFileWithMore && (status == S304 || status == S324))
      || (event == NodeOnlySendsHeartbeats && status == S100)
      || (event == Interrupt && status == S500)
      )
    else if state == BroadcastingAllReceived then
      (
      || (event == FileSendTick && status == S112)
      || (event == ReceivedHeartbeat && (status == S110 || status == S111 || status == S140 || status == S155))
      || (event == NewLocalFile && (status == S300 || status == S320))
      || (event == NewLocalFileWithMore && (status == S304 || status == S324))
      || (event == NodeOnlySendsHeartbeats && status == S100)
      || (event == Interrupt && status == S500)
      )
    else if state == BroadcastingAllReceivedWithMoreAlpha then
      (
      || (event == FileSendTick && status == S112)
      || (event == ReceivedHeartbeat && (status == S114 || status == S115 || status == S145 || status == S150
            || status == S116))
      || (event == NewLocalFile && (status == S300 || status == S320))
      || (event == NewLocalFileWithMore && (status == S304 || status == S324))
      || (event == NodeOnlySendsHeartbeats && status == S100)
      || (event == Interrupt && status == S500)
      )
    else if state == BroadcastingAllReceivedWithMoreBeta then
      (
      || (event == FileSendTick && status == S112)
      || (event == ReceivedHeartbeat && (status == S116 || status == S117 || status == S147 || status == S150
            || status == S114))
      || (event == NewLocalFile && (status == S300 || status == S320))
      || (event == NewLocalFileWithMore && (status == S304 || status == S324))
      || (event == NodeOnlySendsHeartbeats && status == S100)
      || (event == Interrupt && status == S500)
      )
    else if state == BroadcastingAllMetadataReceived then
      (
      || (event == ReceivedHeartbeat && (status == S170 || status == S171 || status == S141 || status == S130
            || status == S134 || status == S150))
      || (event == NewLocalFile && (status == S300 || status == S320))
      || (event == NewLocalFileWithMore && (status == S304 || status == S324))
      || (event == NodeOnlySendsHeartbeats && status == S100)
      || (event == Interrupt && status == S500)
      )
    else if state == SyncingStop then
      (
      || (event == FileSendTick && status == S112)
      || (event == ReceivedHeartbeat && (status == S150 || status == S155))
      || (event == TimingOffsetElapsed && status == S156)
      || (event == Interrupt && status == S500)
      )
    else if state == Exit then
      (
      || (event == Interrupt && status == S500)
      )
    else false
  }

  /** The action attached to a transition. */
  function ActionOf(state: State, event: Event, status: Status): Action {
    if state == Ready then
      (if (event == NewLocalFile && status == S300)
         || (event == NewLocalFileWithMore && status == S304)
         || (event == LocalFileMetadataChange && status == S320)
         || (event == LocalFileMetadataChangeWithMore && status == S324)
         || (event == ReceivedHeartbeat && (status == S100 || status == S120 || status == S124 || status == S160
            || status == S164 || status == S150)) then SendHeartbeat
      else if (event == Interrupt && status == S500) then ExitProgram
      else NullAction)
    else if state == AnnouncingNewFile then
      (if (event == ReceivedHeartbeat && status == S121)
         || (event == AllNodesReplied && status == S122)
         || (event == NewLocalFile && status == S300)
         || (event == NewLocalFileReportedTwice && status == S301)
         || (event == NewLocalFileWithMore && status == S304)
         || (event == LocalFileMetadataChange && status == S320)
         || (event == LocalFileMetadataChangeWithMore && status == S324) then SendHeartbeat
      else if (event == Interrupt && status == S500) then ExitProgram
      else NullAction)
    else if state == AnnouncingNewFileWithMore then
      (if (event == ReceivedHeartbeat && status == S125)
         || (event == AllNodesReplied && status == S126)
         || (event == NewLocalFile && status == S300)
         || (event == NewLocalFileWithMore && status == S304)
         || (event == LocalFileMetadataChange && status == S320)
         || (event == LocalFileMetadataChangeWithMore && status == S324) then SendHeartbeat
      else if (event == Interrupt && status == S500) then ExitProgram
      else NullAction)
    else if state == AnnouncingFileMetadataChange then
      (if (event == ReceivedHeartbeat && status == S161)
         || (event == AllNodesReplied && status == S162)
         || (event == NewLocalFile && status == S300)
         || (event == NewLocalFileWithMore && status == S304)
         || (event == LocalFileMetadataChange && status == S320)
         || (event == LocalFileMetadataChangeWithMore && status == S324) then SendHeartbeat
      else if (event == Interrupt && status == S500) then ExitProgram
      else NullAction)
    else if state == AnnouncingFileMetadataChangeWithMore then
      (if (event == ReceivedHeartbeat && status == S165)
         || (event == AllNodesReplied && status == S166)
         || (event == NewLocalFile && status == S300)
         || (event == NewLocalFileWithMore && status == S304)
         || (event == LocalFileMetadataChange && status == S320)
         || (event == LocalFileMetadataChangeWithMore && status == S324) then SendHeartbeat
      else if (event == Interrupt && status == S500) then ExitProgram
      else NullAction)
    else if state == SendingNewFileMetadata then
      (if (event == ReceivedHeartbeat && status == S131)
         || (event == TimingOffsetElapsed && status == S132) then SendHeartbeat
      else if (event == NewLocalFile && status == S300)
         || (event == NewLocalFileWithMore && status == S304)
         || (event == LocalFileMetadataChange && status == S320)
         || (event == LocalFileMetadataChangeWithMore && status == S324) then AddNewFileToQueue
      else if (event == Interrupt && status == S500) then ExitProgram
      else NullAction)
    else if state == SendingNewFileMetadataWithMore then
      (if (event == ReceivedHeartbeat && status == S135)
         || (event == TimingOffsetElapsed && status == S132)
         || (event == NewLocalFile && status == S300)
         || (event == NewLocalFileWithMore && status == S304) then SendHeartbeat
      else if (event == LocalFileMetadataChange && status == S320)
         || (event == LocalFileMetadataChangeWithMore && status == S324) then AddNewFileToQueue
      else if (event == Interrupt && status == S500) then ExitProgram
      else NullAction)
    else if state == SendingFileMetadataChange then
      (if (event == ReceivedHeartbeat && (status == S171 || status == S141))
         || (event == AllNodesHaveFile && status == S172) then SendHeartbeat
      else if (event == NewLocalFile && status == S300)
         || (event == NewLocalFileWithMore && status == S304)
         || (event == LocalFileMetadataChange && status == S320)
         || (event == LocalFileMetadataChangeWithMore && status == S324) then AddNewFileToQueue
      else if (event == Interrupt && status == S500) then ExitProgram
      else NullAction)
    else if state == SendingFileMetadataChangeWithMore then
      (if (event == ReceivedHeartbeat && (status == S175 || status == S141))
         || (event == AllNodesHaveAllFiles && status == S172)
         || (event == AllNodesHaveAllMetadataChangesWithMore && (status == S177 || status == S178))
         || (event == NewLocalFile && status == S300)
         || (event == NewLocalFileWithMore && status == S304)
         || (event == LocalFileMetadataChange && status == S320)
         || (event == LocalFileMetadataChangeWithMore && status == S324) then SendHeartbeat
      else if (event == Interrupt && status == S500) then ExitProgram
      else NullAction)
    else if state == SendingNewFile then
      (if (event == FileSendTick && status == S112) then SendFileData
      else if (event == ReceivedHeartbeat && (status == S111 || status == S140 || status == S410))
         || (event == AllNodesHaveFile && status == S142)
         || (event == NodeOnlySendsHeartbeats && status == S100) then SendHeartbeat
      else if (event == ReceivedFakeFileData && status == S210) then Ignore
      else if (event == NewLocalFile && status == S300)
         || (event == NewLocalFileWithMore && status == S304)
         || (event == LocalFileMetadataChange && status == S320)
         || (event == LocalFileMetadataChangeWithMore && status == S324) then AddNewFileToQueue
      else if (event == Interrupt && status == S500) then ExitProgram
      else NullAction)
    else if state == SendingNewFileWithMoreAlpha then
      (if (event == FileSendTick && status == S112) then SendFileData
      else if (event == ReceivedHeartbeat && (status == S115 || status == S140 || status == S410))
         || (event == AllNodesHaveFile && status == S142)
         || (event == AllNodesHaveFileWithMore && status == S146)
         || (event == NodeOnlySendsHeartbeats && status == S100) then SendHeartbeat
      else if (event == ReceivedFakeFileData && status == S210) then Ignore
      else if (event == NewLocalFile && status == S300)
         || (event == NewLocalFileWithMore && status == S304)
         || (event == LocalFileMetadataChange && status == S320)
         || (event == LocalFileMetadataChangeWithMore && status == S324) then AddNewFileToQueue
      else if (event == Interrupt && status == S500) then ExitProgram
      else NullAction)
    else if state == SendingNewFileWithMoreBeta then
      (if (event == FileSendTick && status == S112) then SendFileData
      else if (event == ReceivedHeartbeat && (status == S115 || status == S140 || status == S410))
         || (event == AllNodesHaveFile && status == S142)
         || (event == AllNodesHaveFileWithMore && status == S146)
         || (event == NodeOnlySendsHeartbeats && status == S100) then SendHeartbeat
      else if (event == ReceivedFakeFileData && status == S210) then Ignore
      else if (event == NewLocalFile && status == S300)
         || (event == NewLocalFileWithMore && status == S304)
         || (event == LocalFileMetadataChange && status == S320)
         || (event == LocalFileMetadataChangeWithMore && status == S324) then AddNewFileToQueue
      else if (event == Interrupt && status == S500) then ExitProgram
      else NullAction)
    else if state == AcknowledgingNewFile then
      (if (event == ReceivedHeartbeat && (status == S130 || status == S120 || status == S121
            || status == S124)) then SendHeartbeat
      else if (event == NewLocalFile && status == S300)
         || (event == NewLocalFileWithMore && status == S304)
         || (event == LocalFileMetadataChange && status == S320)
         || (event == LocalFileMetadataChangeWithMore && status == S324) then AddNewFileToQueue
      else if (event == Interrupt && status == S500) then ExitProgram
      else NullAction)
    else if state == AcknowledgingNewFileWithMore then
      (if (event == ReceivedHeartbeat && (status == S134 || status == S124 || status == S125)) then SendHeartbeat
      else if (event == NewLocalFile && status == S300)
         || (event == NewLocalFileWithMore && status == S304)
         || (event == LocalFileMetadataChange && status == S320)
         || (event == LocalFileMetadataChangeWithMore && status == S324) then AddNewFileToQueue
      else if (event == Interrupt && status == S500) then ExitProgram
      else NullAction)
    else if state == AcknowledgingFileMetadataChange then
      (if (event == ReceivedHeartbeat && (status == S170 || status == S160 || status == S161
            || status == S164)) then SendHeartbeat
      else if (event == NewLocalFile && (status == S300 || status == S320))
         || (event == NewLocalFileWithMore && (status == S304 || status == S324)) then AddNewFileToQueue
      else if (event == Interrupt && status == S500) then ExitProgram
      else NullAction)
    else if state == AcknowledgingFileMetadataChangeWithMore then
      (if (event == ReceivedHeartbeat && (status == S174 || status == S164 || status == S165)) then SendHeartbeat
      else if (event == NewLocalFile && (status == S300 || status == S320))
         || (event == NewLocalFileWithMore && (status == S304 || status == S324)) then AddNewFileToQueue
      else if (event == Interrupt && status == S500) then ExitProgram
      else NullAction)
    else if state == PromotingNewFileMetadata then
      (if (event == ReceivedHeartbeat && (status == S130 || status == S131 || status == S134))
         || (event == TimingOffsetElapsed && status == S132) then SendHeartbeat
      else if (event == NewLocalFile && (status == S300 || status == S320))
         || (event == NewLocalFileWithMore && (status == S304 || status == S324)) then AddNewFileToQueue
      else if (event == Interrupt && status == S500) then ExitProgram
      else NullAction)
    else if state == PromotingNewFileMetadataWithMore then
      (if (event == ReceivedHeartbeat && (status == S134 || status == S135))
         || (event == TimingOffsetElapsed && status == S136) then SendHeartbeat
      else if (event == NewLocalFile && (status == S300 || status == S320))
         || (event == NewLocalFileWithMore && (status == S304 || status == S324)) then AddNewFileToQueue
      else if (event == Interrupt && status == S500) then ExitProgram
      else NullAction)
    else if state == ReceivingFileMetadataChange then
      (if (event == ReceivedHeartbeat && (status == S170 || status == S171 || status == S175 || status == S141))
         || (event == AllMetadataReceived && status == S173) then SendHeartbeat
      else if (event == NewLocalFile && (status == S300 || status == S320))
         || (event == NewLocalFileWithMore && (status == S304 || status == S324)) then AddNewFileToQueue
      else if (event == Interrupt && status == S500) then ExitProgram
      else NullAction)
    else if state == ReceivingFileMetadataChangeWithMore then
      (if (event == ReceivedHeartbeat && (status == S174 || status == S175 || status == S141))
         || (event == AllMetadataReceived && status == S173) then SendHeartbeat
      else if (event == NewLocalFile && (status == S300 || status == S320))
         || (event == NewLocalFileWithMore && (status == S304 || status == S324)) then AddNewFileToQueue
      else if (event == Interrupt && status == S500) then ExitProgram
      else NullAction)
    else if state == SendingFakeFile then
      (if (event == FileSendTick && status == S112) then SendFileData
      else if (event == ReceivedHeartbeat && (status == S110 || status == S111 || status == S140 || status == S410))
         || (event == AllDataReceived && status == S113)
         || (event == NodeOnlySendsHeartbeats && status == S100) then SendHeartbeat
      else if (event == ReceivedFileData && status == S200) then StoreFileData
      else if (event == NewLocalFile && (status == S300 || status == S320))
         || (event == NewLocalFileWithMore && (status == S304 || status == S324)) then AddNewFileToQueue
      else if (event == Interrupt && status == S500) then ExitProgram
      else NullAction)
    else if state == SendingFakeFileWithMoreAlpha then
      (if (event == FileSendTick && status == S112) then SendFileData
      else if (event == ReceivedHeartbeat && (status == S114 || status == S115 || status == S145 || status == S410))
         || (event == AllDataReceived && status == S113)
         || (event == NodeOnlySendsHeartbeats && status == S100) then SendHeartbeat
      else if (event == ReceivedFileData && status == S200) then StoreFileData
      else if (event == NewLocalFile && (status == S300 || status == S320))
         || (event == NewLocalFileWithMore && (status == S304 || status == S324)) then AddNewFileToQueue
      else if (event == Interrupt && status == S500) then ExitProgram
      else NullAction)
    else if state == SendingFakeFileWithMoreBeta then
      (if (event == FileSendTick && status == S112) then SendFileData
      else if (event == ReceivedHeartbeat && (status == S114 || status == S117 || status == S145 || status == S410))
         || (event == AllDataReceived && status == S113)
         || (event == NodeOnlySendsHeartbeats && status == S100) then SendHeartbeat
      else if (event == ReceivedFileData && status == S200) then StoreFileData
      else if (event == NewLocalFile && (status == S300 || status == S320))
         || (event == NewLocalFileWithMore && (status == S304 || status == S324)) then AddNewFileToQueue
      else if (event == Interrupt && status == S500) then ExitProgram
      else NullAction)
    else if state == BroadcastingAllReceived then
      (if (event == FileSendTick && status == S112) then SendFakeFileData
      else if (event == ReceivedHeartbeat && (status == S110 || status == S111 || status == S140 || status == S155))
         || (event == NodeOnlySendsHeartbeats && status == S100) then SendHeartbeat
      else if (event == NewLocalFile && (status == S300 || status == S320))
         || (event == NewLocalFileWithMore && (status == S304 || status == S324)) then AddNewFileToQueue
      else if (event == Interrupt && status == S500) then ExitProgram
      else NullAction)
    else if state == BroadcastingAllReceivedWithMoreAlpha then
      (if (event == FileSendTick && status == S112) then SendFakeFileData
      else if (event == ReceivedHeartbeat && (status == S114 || status == S115 || status == S145
            || status == S150 || status == S116))
         || (event == NodeOnlySendsHeartbeats && status == S100) then SendHeartbeat
      else if (event == NewLocalFile && (status == S300 || status == S320))
         || (event == NewLocalFileWithMore && (status == S304 || status == S324)) then AddNewFileToQueue
      else if (event == Interrupt && status == S500) then ExitProgram
      else NullAction)
    else if state == BroadcastingAllReceivedWithMoreBeta then
      (if (event == FileSendTick && status == S112) then SendFakeFileData
      else if (event == ReceivedHeartbeat && (status == S116 || status == S117 || status == S147
            || status == S150 || status == S114))
         || (event == NodeOnlySendsHeartbeats && status == S100) then SendHeartbeat
      else if (event == NewLocalFile && (status == S300 || status == S320))
         || (event == NewLocalFileWithMore && (status == S304 || status == S324)) then AddNewFileToQueue
      else if (event == Interrupt && status == S500) then ExitProgram
      else NullAction)
    else if state == BroadcastingAllMetadataReceived then
      (if (event == ReceivedHeartbeat && (status == S170 || status == S171 || status == S141 || status == S130
            || status == S134 || status == S150))
         || (event == NodeOnlySendsHeartbeats && status == S100) then SendHeartbeat
      else if (event == NewLocalFile && (status == S300 || status == S320))
         || (event == NewLocalFileWithMore && (status == S304 || status == S324)) then AddNewFileToQueue
      else if (event == Interrupt && status == S500) then ExitProgram
      else NullAction)
    else if state == SyncingStop then
      (if (event == FileSendTick && status == S112) then SendFakeFileData
      else if (event == ReceivedHeartbeat && (status == S150 || status == S155))
         || (event == TimingOffsetElapsed && status == S156) then SendHeartbeat
      else if (event == Interrupt && status == S500) then ExitProgram
      else NullAction)
    else if state == Exit then
      (if (event == Interrupt && status == S500) then ExitProgram
      else NullAction)
    else NullAction
  }

  /** The status to advertise when the transition sends a heartbeat. */
  function HeartbeatStatus(state: State, event: Event, status: Status): Status {
    if state == Ready then
      (if (event == NewLocalFile && status == S300) then S120
      else if (event == NewLocalFileWithMore && status == S304) then S124
      else if (event == LocalFileMetadataChange && status == S320) then S160
      else if (event == LocalFileMetadataChangeWithMore && status == S324) then S164
      else if (event == ReceivedHeartbeat && (status == S100 || status == S150)) then S100
      else if (event == ReceivedHeartbeat && status == S120) then S121
      else if (event == ReceivedHeartbeat && status == S124) then S125
      else if (event == ReceivedHeartbeat && status == S160) then S161
      else if (event == ReceivedHeartbeat && status == S164) then S165
      else if (event == Interrupt && status == S500) then S500
      else NullStatus)
    else if state == AnnouncingNewFile then
      (if (event == ReceivedHeartbeat && status == S121)
         || (event == NewLocalFileReportedTwice && status == S301) then S120
      else if (event == AllNodesReplied && status == S122) then S130
      else if (event == NewLocalFile && status == S300)
         || (event == NewLocalFileWithMore && status == S304) then S124
      else if (event == LocalFileMetadataChange && status == S320)
         || (event == LocalFileMetadataChangeWithMore && status == S324) then S164
      else if (event == Interrupt && status == S500) then S500
      else NullStatus)
    else if state == AnnouncingNewFileWithMore then
      (if (event == ReceivedHeartbeat && status == S125)
         || (event == NewLocalFile && status == S300)
         || (event == NewLocalFileWithMore && status == S304) then S124
      else if (event == AllNodesReplied && status == S126) then S134
      else if (event == LocalFileMetadataChange && status == S320)
         || (event == LocalFileMetadataChangeWithMore && status == S324) then S164
      else if (event == Interrupt && status == S500) then S500
      else NullStatus)
    else if state == AnnouncingFileMetadataChange then
      (if (event == ReceivedHeartbeat && status == S161) then S160
      else if (event == AllNodesReplied && status == S162) then S170
      else if (event == NewLocalFile && status == S300)
         || (event == NewLocalFileWithMore && status == S304)
         || (event == LocalFileMetadataChange && status == S320)
         || (event == LocalFileMetadataChangeWithMore && status == S324) then S164
      else if (event == Interrupt && status == S500) then S500
      else NullStatus)
    else if state == AnnouncingFileMetadataChangeWithMore then
      (if (event == ReceivedHeartbeat && status == S165)
         || (event == NewLocalFile && status == S300)
         || (event == NewLocalFileWithMore && status == S304)
         || (event == LocalFileMetadataChange && status == S320)
         || (event == LocalFileMetadataChangeWithMore && status == S324) then S164
      else if (event == AllNodesReplied && status == S166) then S174
      else if (event == Interrupt && status == S500) then S500
      else NullStatus)
    else if state == SendingNewFileMetadata then
      (if (event == ReceivedHeartbeat && status == S131)
         || (event == NewLocalFile && status == S300)
         || (event == NewLocalFileWithMore && status == S304)
         || (event == LocalFileMetadataChange && status == S320)
         || (event == LocalFileMetadataChangeWithMore && status == S324) then S130
      else if (event == TimingOffsetElapsed && status == S132) then S110
      else if (event == Interrupt && status == S500) then S500
      else NullStatus)
    else if state == SendingNewFileMetadataWithMore then
      (if (event == ReceivedHeartbeat && status == S135)
         || (event == NewLocalFile && status == S300)
         || (event == NewLocalFileWithMore && status == S304)
         || (event == LocalFileMetadataChange && status == S320)
         || (event == LocalFileMetadataChangeWithMore && status == S324) then S134
      else if (event == TimingOffsetElapsed && status == S132) then S114
      else if (event == Interrupt && status == S500) then S500
      else NullStatus)
    else if state == SendingFileMetadataChange then
      (if (event == ReceivedHeartbeat && (status == S171 || status == S141))
         || (event == NewLocalFile && status == S300)
         || (event == NewLocalFileWithMore && status == S304)
         || (event == LocalFileMetadataChange && status == S320)
         || (event == LocalFileMetadataChangeWithMore && status == S324) then S170
      else if (event == AllNodesHaveFile && status == S172) then S150
      else if (event == Interrupt && status == S500) then S500
      else NullStatus)
    else if state == SendingFileMetadataChangeWithMore then
      (if (event == ReceivedHeartbeat && (status == S175 || status == S141))
         || (event == NewLocalFile && status == S300)
         || (event == NewLocalFileWithMore && status == S304)
         || (event == LocalFileMetadataChange && status == S320)
         || (event == LocalFileMetadataChangeWithMore && status == S324) then S174
      else if (event == AllNodesHaveAllFiles && status == S172) then S150
      else if (event == AllNodesHaveAllMetadataChangesWithMore && status == S177) then S130
      else if (event == AllNodesHaveAllMetadataChangesWithMore && status == S178) then S134
      else if (event == Interrupt && status == S500) then S500
      else NullStatus)
    else if state == SendingNewFile then
      (if (event == FileSendTick && status == S112) then S200
      else if (event == ReceivedHeartbeat && (status == S111 || status == S140))
         || (event == ReceivedFakeFileData && status == S210)
         || (event == NewLocalFile && status == S300)
         || (event == NewLocalFileWithMore && status == S304)
         || (event == LocalFileMetadataChange && status == S320)
         || (event == LocalFileMetadataChangeWithMore && status == S324) then S110
      else if (event == AllNodesHaveFile && status == S142) then S155
      else if (event == ReceivedHeartbeat && status == S410)
         || (event == NodeOnlySendsHeartbeats && status == S100) then S410
      else if (event == Interrupt && status == S500) then S500
      else NullStatus)
    else if state == SendingNewFileWithMoreAlpha then
      (if (event == FileSendTick && status == S112) then S200
      else if (event == ReceivedHeartbeat && (status == S115 || status == S140))
         || (event == ReceivedFakeFileData && status == S210)
         || (event == NewLocalFile && status == S300)
         || (event == NewLocalFileWithMore && status == S304)
         || (event == LocalFileMetadataChange && status == S320)
         || (event == LocalFileMetadataChangeWithMore && status == S324) then S114
      else if (event == AllNodesHaveFile && status == S142) then S110
      else if (event == AllNodesHaveFileWithMore && status == S146) then S116
      else if (event == ReceivedHeartbeat && status == S410)
         || (event == NodeOnlySendsHeartbeats && status == S100) then S410
      else if (event == Interrupt && status == S500) then S500
      else NullStatus)
    else if state == SendingNewFileWithMoreBeta then
      (if (event == FileSendTick && status == S112) then S200
      else if (event == ReceivedHeartbeat && (status == S115 || status == S140))
         || (event == ReceivedFakeFileData && status == S210)
         || (event == NewLocalFile && status == S300)
         || (event == NewLocalFileWithMore && status == S304)
         || (event == LocalFileMetadataChange && status == S320)
         || (event == LocalFileMetadataChangeWithMore && status == S324) then S116
      else if (event == AllNodesHaveFile && status == S142) then S110
      else if (event == AllNodesHaveFileWithMore && status == S146) then S114
      else if (event == ReceivedHeartbeat && status == S410)
         || (event == NodeOnlySendsHeartbeats && status == S100) then S410
      else if (event == Interrupt && status == S500) then S500
      else NullStatus)
    else if state == AcknowledgingNewFile then
      (if (event == ReceivedHeartbeat && status == S130) then S131
      else if (event == ReceivedHeartbeat && (status == S120 || status == S121))
         || (event == NewLocalFile && status == S300)
         || (event == NewLocalFileWithMore && status == S304)
         || (event == LocalFileMetadataChange && status == S320)
         || (event == LocalFileMetadataChangeWithMore && status == S324) then S121
      else if (event == ReceivedHeartbeat && status == S124) then S125
      else if (event == Interrupt && status == S500) then S500
      else NullStatus)
    else if state == AcknowledgingNewFileWithMore then
      (if (event == ReceivedHeartbeat && status == S134) then S131
      else if (event == ReceivedHeartbeat && (status == S124 || status == S125))
         || (event == NewLocalFile && status == S300)
         || (event == NewLocalFileWithMore && status == S304)
         || (event == LocalFileMetadataChange && status == S320)
         || (event == LocalFileMetadataChangeWithMore && status == S324) then S125
      else if (event == Interrupt && status == S500) then S500
      else NullStatus)
    else if state == AcknowledgingFileMetadataChange then
      (if (event == ReceivedHeartbeat && status == S170) then S171
      else if (event == ReceivedHeartbeat && (status == S160 || status == S161))
         || (event == NewLocalFile && (status == S300 || status == S320))
         || (event == NewLocalFileWithMore && (status == S304 || status == S324)) then S161
      else if (event == ReceivedHeartbeat && status == S164) then S165
      else if (event == Interrupt && status == S500) then S500
      else NullStatus)
    else if state == AcknowledgingFileMetadataChangeWithMore then
      (if (event == ReceivedHeartbeat && status == S174) then S175
      else if (event == ReceivedHeartbeat && (status == S164 || status == S165))
         || (event == NewLocalFile && (status == S300 || status == S320))
         || (event == NewLocalFileWithMore && (status == S304 || status == S324)) then S165
      else if (event == Interrupt && status == S500) then S500
      else NullStatus)
    else if state == PromotingNewFileMetadata then
      (if (event == ReceivedHeartbeat && (status == S130 || status == S131))
         || (event == NewLocalFile && (status == S300 || status == S320))
         || (event == NewLocalFileWithMore && (status == S304 || status == S324)) then S131
      else if (event == ReceivedHeartbeat && status == S134) then S135
      else if (event == TimingOffsetElapsed && status == S132) then S111
      else if (event == Interrupt && status == S500) then S500
      else NullStatus)
    else if state == PromotingNewFileMetadataWithMore then
      (if (event == ReceivedHeartbeat && (status == S134 || status == S135))
         || (event == NewLocalFile && (status == S300 || status == S320))
         || (event == NewLocalFileWithMore && (status == S304 || status == S324)) then S135
      else if (event == TimingOffsetElapsed && status == S136) then S115
      else if (event == Interrupt && status == S500) then S500
      else NullStatus)
    else if state == ReceivingFileMetadataChange then
      (if (event == ReceivedHeartbeat && (status == S170 || status == S171 || status == S175 || status == S141))
         || (event == NewLocalFile && (status == S300 || status == S320))
         || (event == NewLocalFileWithMore && (status == S304 || status == S324)) then S171
      else if (event == AllMetadataReceived && status == S173) then S141
      else if (event == Interrupt && status == S500) then S500
      else NullStatus)
    else if state == ReceivingFileMetadataChangeWithMore then
      (if (event == ReceivedHeartbeat && (status == S174 || status == S175 || status == S141))
         || (event == NewLocalFile && (status == S300 || status == S320))
         || (event == NewLocalFileWithMore && (status == S304 || status == S324)) then S175
      else if (event == AllMetadataReceived && status == S173) then S141
      else if (event == Interrupt && status == S500) then S500
      else NullStatus)
    else if state == SendingFakeFile then
      (if (event == FileSendTick && status == S112) then S210
      else if (event == ReceivedHeartbeat && (status == S110 || status == S111 || status == S140))
         || (event == ReceivedFileData && status == S200)
         || (event == NewLocalFile && (status == S300 || status == S320))
         || (event == NewLocalFileWithMore && (status == S304 || status == S324)) then S111
      else if (event == AllDataReceived && status == S113) then S140
      else if (event == ReceivedHeartbeat && status == S410)
         || (event == NodeOnlySendsHeartbeats && status == S100) then S410
      else if (event == Interrupt && status == S500) then S500
      else NullStatus)
    else if state == SendingFakeFileWithMoreAlpha then
      (if (event == FileSendTick && status == S112) then S210
      else if (event == ReceivedHeartbeat && (status == S114 || status == S115 || status == S145))
         || (event == ReceivedFileData && status == S200)
         || (event == NewLocalFile && (status == S300 || status == S320))
         || (event == NewLocalFileWithMore && (status == S304 || status == S324)) then S115
      else if (event == AllDataReceived && status == S113) then S145
      else if (event == ReceivedHeartbeat && status == S410)
         || (event == NodeOnlySendsHeartbeats && status == S100) then S410
      else if (event == Interrupt && status == S500) then S500
      else NullStatus)
    else if state == SendingFakeFileWithMoreBeta then
      (if (event == FileSendTick && status == S112) then S210
      else if (event == ReceivedHeartbeat && (status == S114 || status == S117 || status == S145))
         || (event == ReceivedFileData && status == S200)
         || (event == NewLocalFile && (status == S300 || status == S320))
         || (event == NewLocalFileWithMore && (status == S304 || status == S324)) then S117
      else if (event == AllDataReceived && status == S113) then S147
      else if (event == ReceivedHeartbeat && status == S410)
         || (event == NodeOnlySendsHeartbeats && status == S100) then S410
      else if (event == Interrupt && status == S500) then S500
      else NullStatus)
    else if state == BroadcastingAllReceived then
      (if (event == FileSendTick && status == S112) then S210
      else if (event == ReceivedHeartbeat && (status == S110 || status == S111 || status == S140))
         || (event == NewLocalFile && (status == S300 || status == S320))
         || (event == NewLocalFileWithMore && (status == S304 || status == S324)) then S140
      else if (event == ReceivedHeartbeat && status == S155) then S155
      else if (event == NodeOnlySendsHeartbeats && status == S100) then S410
      else if (event == Interrupt && status == S500) then S500
      else NullStatus)
    else if state == BroadcastingAllReceivedWithMoreAlpha then
      (if (event == FileSendTick && status == S112) then S210
      else if (event == ReceivedHeartbeat && (status == S114 || status == S115 || status == S145))
         || (event == NewLocalFile && (status == S300 || status == S320))
         || (event == NewLocalFileWithMore && (status == S304 || status == S324)) then S145
      else if (event == ReceivedHeartbeat && status == S150) then S111
      else if (event == ReceivedHeartbeat && status == S116) then S117
      else if (event == NodeOnlySendsHeartbeats && status == S100) then S410
      else if (event == Interrupt && status == S500) then S500
      else NullStatus)
    else if state == BroadcastingAllReceivedWithMoreBeta then
      (if (event == FileSendTick && status == S112) then S210
      else if (event == ReceivedHeartbeat && (status == S116 || status == S117 || status == S147))
         || (event == NewLocalFile && (status == S300 || status == S320))
         || (event == NewLocalFileWithMore && (status == S304 || status == S324)) then S147
      else if (event == ReceivedHeartbeat && status == S150) then S111
      else if (event == ReceivedHeartbeat && status == S114) then S115
      else if (event == NodeOnlySendsHeartbeats && status == S100) then S410
      else if (event == Interrupt && status == S500) then S500
      else NullStatus)
    else if state == BroadcastingAllMetadataReceived then
      (if (event == ReceivedHeartbeat && (status == S170 || status == S171 || status == S141))
         || (event == NewLocalFile && (status == S300 || status == S320))
         || (event == NewLocalFileWithMore && (status == S304 || status == S324)) then S141
      else if (event == ReceivedHeartbeat && status == S130) then S131
      else if (event == ReceivedHeartbeat && status == S134) then S135
      else if (event == ReceivedHeartbeat && status == S150) then S150
      else if (event == NodeOnlySendsHeartbeats && status == S100) then S410
      else if (event == Interrupt && status == S500) then S500
      else NullStatus)
    else if state == SyncingStop then
      (if (event == FileSendTick && status == S112) then S210
      else if (event == ReceivedHeartbeat && (status == S150 || status == S155)) then S155
      else if (event == TimingOffsetElapsed && status == S156) then S100
      else if (event == Interrupt && status == S500) then S500
      else NullStatus)
    else if state == Exit then
      (if (event == Interrupt && status == S500) then S500
      else NullStatus)
    else NullStatus
  }

  /** The successor state. */
  function NewState(state: State, event: Event, status: Status): State {
    if state == Ready then
      (if (event == NewLocalFile && status == S300) then AnnouncingNewFile
      else if (event == NewLocalFileWithMore && status == S304) then AnnouncingNewFileWithMore
      else if (event == LocalFileMetadataChange && status == S320) then AnnouncingFileMetadataChange
      else if (event == LocalFileMetadataChangeWithMore && status == S324) then AnnouncingFileMetadataChangeWithMore
      else if (event == ReceivedHeartbeat && (status == S100 || status == S150)) then Ready
      else if (event == ReceivedHeartbeat && status == S120) then AcknowledgingNewFile
      else if (event == ReceivedHeartbeat && status == S124) then AcknowledgingNewFileWithMore
      else if (event == ReceivedHeartbeat && status == S160) then AcknowledgingFileMetadataChange
      else if (event == ReceivedHeartbeat && status == S164) then AcknowledgingFileMetadataChangeWithMore
      else if (event == Interrupt && status == S500) then Exit
      else NullState)
    else if state == AnnouncingNewFile then
      (if (event == ReceivedHeartbeat && status == S121)
         || (event == NewLocalFileReportedTwice && status == S301) then AnnouncingNewFile
      else if (event == AllNodesReplied && status == S122) then SendingNewFileMetadata
      else if (event == NewLocalFile && status == S300)
         || (event == NewLocalFileWithMore && status == S304) then AnnouncingNewFileWithMore
      else if (event == LocalFileMetadataChange && status == S320)
         || (event == LocalFileMetadataChangeWithMore && status == S324) then AnnouncingFileMetadataChangeWithMore
      else if (event == Interrupt && status == S500) then Exit
      else NullState)
    else if state == AnnouncingNewFileWithMore then
      (if (event == ReceivedHeartbeat && status == S125)
         || (event == NewLocalFile && status == S300)
         || (event == NewLocalFileWithMore && status == S304) then AnnouncingNewFileWithMore
      else if (event == AllNodesReplied && status == S126) then SendingNewFileMetadataWithMore
      else if (event == LocalFileMetadataChange && status == S320)
         || (event == LocalFileMetadataChangeWithMore && status == S324) then AnnouncingFileMetadataChangeWithMore
      else if (event == Interrupt && status == S500) then Exit
      else NullState)
    else if state == AnnouncingFileMetadataChange then
      (if (event == ReceivedHeartbeat && status == S161) then AnnouncingFileMetadataChange
      else if (event == AllNodesReplied && status == S162) then SendingFileMetadataChange
      else if (event == NewLocalFile && status == S300)
         || (event == NewLocalFileWithMore && status == S304)
         || (event == LocalFileMetadataChange && status == S320)
         || (event == LocalFileMetadataChangeWithMore && status == S324) then AnnouncingFileMetadataChangeWithMore
      else if (event == Interrupt && status == S500) then Exit
      else NullState)
    else if state == AnnouncingFileMetadataChangeWithMore then
      (if (event == ReceivedHeartbeat && status == S165)
         || (event == NewLocalFile && status == S300)
         || (event == NewLocalFileWithMore && status == S304)
         || (event == LocalFileMetadataChange && status == S320)
         || (event == LocalFileMetadataChangeWithMore && status == S324) then AnnouncingFileMetadataChangeWithMore
      else if (event == AllNodesReplied && status == S166) then SendingFileMetadataChangeWithMore
      else if (event == Interrupt && status == S500) then Exit
      else NullState)
    else if state == SendingNewFileMetadata then
      (if (event == ReceivedHeartbeat && status == S131)
         || (event == NewLocalFile && status == S300)
         || (event == NewLocalFileWithMore && status == S304)
         || (event == LocalFileMetadataChange && status == S320)
         || (event == LocalFileMetadataChangeWithMore && status == S324) then SendingNewFileMetadata
      else if (event == TimingOffsetElapsed && status == S132) then SendingNewFile
      else if (event == Interrupt && status == S500) then Exit
      else NullState)
    else if state == SendingNewFileMetadataWithMore then
      (if (event == ReceivedHeartbeat && status == S135)
         || (event == NewLocalFile && status == S300)
         || (event == NewLocalFileWithMore && status == S304)
         || (event == LocalFileMetadataChange && status == S320)
         || (event == LocalFileMetadataChangeWithMore && status == S324) then SendingNewFileMetadataWithMore
      else if (event == TimingOffsetElapsed && status == S132) then SendingNewFileWithMoreAlpha
      else if (event == Interrupt && status == S500) then Exit
      else NullState)
    else if state == SendingFileMetadataChange then
      (if (event == ReceivedHeartbeat && (status == S171 || status == S141))
         || (event == NewLocalFile && status == S300)
         || (event == NewLocalFileWithMore && status == S304)
         || (event == LocalFileMetadataChange && status == S320)
         || (event == LocalFileMetadataChangeWithMore && status == S324) then SendingFileMetadataChange
      else if (event == AllNodesHaveFile && status == S172) then Ready
      else if (event == Interrupt && status == S500) then Exit
      else NullState)
    else if state == SendingFileMetadataChangeWithMore then
      (if (event == ReceivedHeartbeat && (status == S175 || status == S141))
         || (event == NewLocalFile && status == S300)
         || (event == NewLocalFileWithMore && status == S304)
         || (event == LocalFileMetadataChange && status == S320)
         || (event == LocalFileMetadataChangeWithMore && status == S324) then SendingFileMetadataChangeWithMore
      else if (event == AllNodesHaveAllFiles && status == S172) then Ready
      else if (event == AllNodesHaveAllMetadataChangesWithMore && status == S177) then SendingNewFileMetadata
      else if (event == AllNodesHaveAllMetadataChangesWithMore && status == S178) then SendingNewFileMetadataWithMore
      else if (event == Interrupt && status == S500) then Exit
      else NullState)
    else if state == SendingNewFile then
      (if (event == FileSendTick && status == S112)
         || (event == ReceivedHeartbeat && (status == S111 || status == S140))
         || (event == ReceivedFakeFileData && status == S210)
         || (event == NewLocalFile && status == S300)
         || (event == NewLocalFileWithMore && status == S304)
         || (event == LocalFileMetadataChange && status == S320)
         || (event == LocalFileMetadataChangeWithMore && status == S324) then SendingNewFile
      else if (event == AllNodesHaveFile && status == S142) then SyncingStop
      else if (event == ReceivedHeartbeat && status == S410)
         || (event == NodeOnlySendsHeartbeats && status == S100) then Ready
      else if (event == Interrupt && status == S500) then Exit
      else NullState)
    else if state == SendingNewFileWithMoreAlpha then
      (if (event == FileSendTick && status == S112)
         || (event == ReceivedHeartbeat && (status == S115 || status == S140))
         || (event == ReceivedFakeFileData && status == S210)
         || (event == NewLocalFile && status == S300)
         || (event == NewLocalFileWithMore && status == S304)
         || (event == LocalFileMetadataChange && status == S320)
         || (event == LocalFileMetadataChangeWithMore && status == S324) then SendingNewFileWithMoreAlpha
      else if (event == AllNodesHaveFile && status == S142) then SendingNewFile
      else if (event == AllNodesHaveFileWithMore && status == S146) then SendingNewFileWithMoreBeta
      else if (event == ReceivedHeartbeat && status == S410)
         || (event == NodeOnlySendsHeartbeats && status == S100) then Ready
      else if (event == Interrupt && status == S500) then Exit
      else NullState)
    else if state == SendingNewFileWithMoreBeta then
      (if (event == FileSendTick && status == S112)
         || (event == ReceivedHeartbeat && (status == S115 || status == S140))
         || (event == ReceivedFakeFileData && status == S210)
         || (event == NewLocalFile && status == S300)
         || (event == NewLocalFileWithMore && status == S304)
         || (event == LocalFileMetadataChange && status == S320)
         || (event == LocalFileMetadataChangeWithMore && status == S324) then SendingNewFileWithMoreBeta
      else if (event == AllNodesHaveFile && status == S142) then SendingNewFile
      else if (event == AllNodesHaveFileWithMore && status == S146) then SendingNewFileWithMoreAlpha
      else if (event == ReceivedHeartbeat && status == S410)
         || (event == NodeOnlySendsHeartbeats && status == S100) then Ready
      else if (event == Interrupt && status == S500) then Exit
      else NullState)
    else if state == AcknowledgingNewFile then
      (if (event == ReceivedHeartbeat && status == S130) then PromotingNewFileMetadata
      else if (event == ReceivedHeartbeat && (status == S120 || status == S121))
         || (event == NewLocalFile && status == S300)
         || (event == NewLocalFileWithMore && status == S304)
         || (event == LocalFileMetadataChange && status == S320)
         || (event == LocalFileMetadataChangeWithMore && status == S324) then AcknowledgingNewFile
      else if (event == ReceivedHeartbeat && status == S124) then AcknowledgingNewFileWithMore
      else if (event == Interrupt && status == S500) then Exit
      else NullState)
    else if state == AcknowledgingNewFileWithMore then
      (if (event == ReceivedHeartbeat && status == S134) then PromotingNewFileMetadataWithMore
      else if (event == ReceivedHeartbeat && (status == S124 || status == S125))
         || (event == NewLocalFile && status == S300)
         || (event == NewLocalFileWithMore && status == S304)
         || (event == LocalFileMetadataChange && status == S320)
         || (event == LocalFileMetadataChangeWithMore && status == S324) then AcknowledgingNewFileWithMore
      else if (event == Interrupt && status == S500) then Exit
      else NullState)
    else if state == AcknowledgingFileMetadataChange then
      (if (event == ReceivedHeartbeat && status == S170) then ReceivingFileMetadataChange
      else if (event == ReceivedHeartbeat && (status == S160 || status == S161))
         || (event == NewLocalFile && (status == S300 || status == S320))
         || (event == NewLocalFileWithMore && (status == S304 || status == S324)) then AcknowledgingFileMetadataChange
      else if (event == ReceivedHeartbeat && status == S164) then AcknowledgingFileMetadataChangeWithMore
      else if (event == Interrupt && status == S500) then Exit
      else NullState)
    else if state == AcknowledgingFileMetadataChangeWithMore then
      (if (event == ReceivedHeartbeat && status == S174) then ReceivingFileMetadataChangeWithMore
      else if (event == ReceivedHeartbeat && (status == S164 || status == S165))
         || (event == NewLocalFile && (status == S300 || status == S320))
         || (event == NewLocalFileWithMore && (status == S304
            || status == S324)) then AcknowledgingFileMetadataChangeWithMore
      else if (event == Interrupt && status == S500) then Exit
      else NullState)
    else if state == PromotingNewFileMetadata then
      (if (event == ReceivedHeartbeat && (status == S130 || status == S131))
         || (event == NewLocalFile && (status == S300 || status == S320))
         || (event == NewLocalFileWithMore && (status == S304 || status == S324)) then PromotingNewFileMetadata
      else if (event == ReceivedHeartbeat && status == S134) then PromotingNewFileMetadataWithMore
      else if (event == TimingOffsetElapsed && status == S132) then SendingFakeFile
      else if (event == Interrupt && status == S500) then Exit
      else NullState)
    else if state == PromotingNewFileMetadataWithMore then
      (if (event == ReceivedHeartbeat && (status == S134 || status == S135))
         || (event == NewLocalFile && (status == S300 || status == S320))
         || (event == NewLocalFileWithMore && (status == S304
            || status == S324)) then PromotingNewFileMetadataWithMore
      else if (event == TimingOffsetElapsed && status == S136) then SendingFakeFileWithMoreAlpha
      else if (event == Interrupt && status == S500) then Exit
      else NullState)
    else if state == ReceivingFileMetadataChange then
      (if (event == ReceivedHeartbeat && (status == S170 || status == S171 || status == S141))
         || (event == NewLocalFile && (status == S300 || status == S320))
         || (event == NewLocalFileWithMore && (status == S304 || status == S324)) then ReceivingFileMetadataChange
      else if (event == ReceivedHeartbeat && status == S175) then ReceivingFileMetadataChangeWithMore
      else if (event == AllMetadataReceived && status == S173) then BroadcastingAllMetadataReceived
      else if (event == Interrupt && status == S500) then Exit
      else NullState)
    else if state == ReceivingFileMetadataChangeWithMore then
      (if (event == ReceivedHeartbeat && (status == S174 || status == S175 || status == S141))
         || (event == NewLocalFile && (status == S300 || status == S320))
         || (event == NewLocalFileWithMore && (status == S304
            || status == S324)) then ReceivingFileMetadataChangeWithMore
      else if (event == AllMetadataReceived && status == S173) then BroadcastingAllMetadataReceived
      else if (event == Interrupt && status == S500) then Exit
      else NullState)
    else if state == SendingFakeFile then
      (if (event == FileSendTick && status == S112)
         || (event == ReceivedHeartbeat && (status == S110 || status == S111 || status == S140))
         || (event == ReceivedFileData && status == S200)
         || (event == NewLocalFile && (status == S300 || status == S320))
         || (event == NewLocalFileWithMore && (status == S304 || status == S324)) then SendingFakeFile
      else if (event == AllDataReceived && status == S113) then BroadcastingAllReceived
      else if (event == ReceivedHeartbeat && status == S410)
         || (event == NodeOnlySendsHeartbeats && status == S100) then Ready
      else if (event == Interrupt && status == S500) then Exit
      else NullState)
    else if state == SendingFakeFileWithMoreAlpha then
      (if (event == FileSendTick && status == S112)
         || (event == ReceivedHeartbeat && (status == S114 || status == S115 || status == S145))
         || (event == ReceivedFileData && status == S200)
         || (event == NewLocalFile && (status == S300 || status == S320))
         || (event == NewLocalFileWithMore && (status == S304 || status == S324)) then SendingFakeFileWithMoreAlpha
      else if (event == AllDataReceived && status == S113) then BroadcastingAllReceivedWithMoreAlpha
      else if (event == ReceivedHeartbeat && status == S410)
         || (event == NodeOnlySendsHeartbeats && status == S100) then Ready
      else if (event == Interrupt && status == S500) then Exit
      else NullState)
    else if state == SendingFakeFileWithMoreBeta then
      (if (event == FileSendTick && status == S112)
         || (event == ReceivedHeartbeat && (status == S114 || status == S117 || status == S145))
         || (event == ReceivedFileData && status == S200)
         || (event == NewLocalFile && (status == S300 || status == S320))
         || (event == NewLocalFileWithMore && (status == S304 || status == S324)) then SendingFakeFileWithMoreBeta
      else if (event == AllDataReceived && status == S113) then BroadcastingAllReceivedWithMoreBeta
      else if (event == ReceivedHeartbeat && status == S410)
         || (event == NodeOnlySendsHeartbeats && status == S100) then Ready
      else if (event == Interrupt && status == S500) then Exit
      else NullState)
    else if state == BroadcastingAllReceived then
      (if (event == FileSendTick && status == S112)
         || (event == ReceivedHeartbeat && (status == S110 || status == S111 || status == S140))
         || (event == NewLocalFile && (status == S300 || status == S320))
         || (event == NewLocalFileWithMore && (status == S304 || status == S324)) then BroadcastingAllReceived
      else if (event == ReceivedHeartbeat && status == S155) then SyncingStop
      else if (event == NodeOnlySendsHeartbeats && status == S100) then Ready
      else if (event == Interrupt && status == S500) then Exit
      else NullState)
    else if state == BroadcastingAllReceivedWithMoreAlpha then
      (if (event == FileSendTick && status == S112)
         || (event == ReceivedHeartbeat && (status == S114 || status == S115 || status == S145))
         || (event == NewLocalFile && (status == S300 || status == S320))
         || (event == NewLocalFileWithMore && (status == S304
            || status == S324)) then BroadcastingAllReceivedWithMoreAlpha
      else if (event == ReceivedHeartbeat && status == S150) then SendingFakeFile
      else if (event == ReceivedHeartbeat && status == S116) then SendingFakeFileWithMoreBeta
      else if (event == NodeOnlySendsHeartbeats && status == S100) then Ready
      else if (event == Interrupt && status == S500) then Exit
      else NullState)
    else if state == BroadcastingAllReceivedWithMoreBeta then
      (if (event == FileSendTick && status == S112)
         || (event == ReceivedHeartbeat && (status == S116 || status == S117 || status == S147))
         || (event == NewLocalFile && (status == S300 || status == S320))
         || (event == NewLocalFileWithMore && (status == S304
            || status == S324)) then BroadcastingAllReceivedWithMoreBeta
      else if (event == ReceivedHeartbeat && status == S150) then SendingFakeFile
      else if (event == ReceivedHeartbeat && status == S114) then SendingFakeFileWithMoreAlpha
      else if (event == NodeOnlySendsHeartbeats && status == S100) then Ready
      else if (event == Interrupt && status == S500) then Exit
      else NullState)
    else if state == BroadcastingAllMetadataReceived then
      (if (event == ReceivedHeartbeat && (status == S170 || status == S171 || status == S141))
         || (event == NewLocalFile && (status == S300 || status == S320))
         || (event == NewLocalFileWithMore && (status == S304 || status == S324)) then BroadcastingAllMetadataReceived
      else if (event == ReceivedHeartbeat && status == S130) then PromotingNewFileMetadata
      else if (event == ReceivedHeartbeat && status == S134) then PromotingNewFileMetadataWithMore
      else if (event == ReceivedHeartbeat && status == S150)
         || (event == NodeOnlySendsHeartbeats && status == S100) then Ready
      else if (event == Interrupt && status == S500) then Exit
      else NullState)
    else if state == SyncingStop then
      (if (event == FileSendTick && status == S112)
         || (event == ReceivedHeartbeat && (status == S150 || status == S155)) then SyncingStop
      else if (event == TimingOffsetElapsed && status == S156) then Ready
      else if (event == Interrupt && status == S500) then Exit
      else NullState)
    else if state == Exit then
      (if (event == Interrupt && status == S500) then Exit
      else NullState)
    else NullState
  }

}
