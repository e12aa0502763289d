/** The enumerations of the storage schemas (OCPP 1.6 value sets). */
module OcppTypes {

  /** Transaction.status. */
  datatype TransactionStatus = Active | Completed | Stopped

  /** Transaction.stopReason (OCPP 1.6 Reason). */
  datatype StopReason =
    | DeAuthorized | EmergencyStop | EVDisconnected | HardReset | Local | Other
    | PowerLoss | Reboot | Remote | SoftReset | UnlockCommand

  /** Connector.status and StatusNotification.status. */
  datatype ConnectorStatus =
    | Available | Occupied | Unavailable | Reserved | Faulted | Preparing | Charging
    | SuspendedEVSE | SuspendedEV

  /** IdTag.status and idTagInfo.status (OCPP 1.6 AuthorizationStatus). */
  datatype AuthorizationStatus = Accepted | Blocked | Expired | Invalid | ConcurrentTx

  /** Sampled value measurand. */
  datatype Measurand =
    | EnergyActiveExportRegister | EnergyActiveImportRegister
    | EnergyReactiveExportRegister | EnergyReactiveImportRegister
    | EnergyActiveExportInterval | EnergyActiveImportInterval
    | EnergyReactiveExportInterval | EnergyReactiveImportInterval
    | PowerActiveExport | PowerActiveImport | PowerOffered
    | PowerReactiveExport | PowerReactiveImport | PowerFactor
    | CurrentImport | CurrentExport | CurrentOffered
    | Voltage | Frequency | Temperature | SoC | RPM

  /** Sampled value context. */
  datatype ReadingContext = SamplePeriodic | SampleClock | TransactionBegin | TransactionEnd | OtherContext

  /** Sampled value format. */
  datatype ValueFormat = Raw | SignedData

  /** Sampled value location. */
  datatype MeterLocation = Cable | EV | Inlet | Outlet | Body

  /** Sampled value unit. */
  datatype UnitOfMeasure =
    | Wh | KWh | Varh | Kvarh | W | KW | VA | KVA | Var | Kvar | A | V | K
    | Celcius | Fahrenheit | Percent

  /** Sampled value phase. */
  datatype Phase = L1 | L2 | L3 | N | L1N | L2N | L3N | L1L2 | L2L3 | L3L1
}
