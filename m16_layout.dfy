/** The M16 sensor's property table (the entries the modelled code reads or
    writes) and its constants. Property ids and device ids are stand-ins:
    only their distinctness matters. */
module M16Layout {
  import opened Properties

  const M16_NUMBER_CHANNELS: nat := 16
  const M16_MAX_ECHOES_BY_CHANNEL: nat := 6
  /** Capacity of the echo buffer after GetConstants: every channel at its maximum. */
  const M16_MAX_ECHOES: nat := M16_NUMBER_CHANNELS * M16_MAX_ECHOES_BY_CHANNEL
  /** Bytes in a license key; a license string holds two hex digits per byte. */
  const LT_COMM_LICENSE_KEY_LENGTH: nat := 16
  /** The highest LED intensity setting (stand-in value). */
  const M16_LED_INTENSITY_MAX: nat := 16
  /** The element id the listing must hold for the firmware to be supported (stand-in value). */
  const M16_ID_DATA_LEVEL: nat := 0x5000

  // Sensor properties.
  const ID_HSEGMENT: PropId := 1
  const ID_VSEGMENT: PropId := 2
  const ID_MAX_ECHOES_PER_CHANNEL: PropId := 3
  const ID_DISTANCE_SCALE: PropId := 4
  const ID_FILTERED_AMP_SCALE: PropId := 5
  const ID_ACCUMULATION_LIMITS: PropId := 6
  const ID_OVERSAMPLING_LIMITS: PropId := 7
  const ID_BASE_POINT_COUNT_LIMITS: PropId := 8
  const ID_CHANGE_DELAY_LIMITS: PropId := 9
  const ID_COM_CAN_PORT_MAX_ECHOES_LIMIT: PropId := 10
  const ID_START_TRACE_LIMITS: PropId := 11
  const ID_SENSIVITY_LIMITS: PropId := 12
  const ID_DETECTION_LENGTH: PropId := 13
  const ID_OPTIONS: PropId := 14
  const ID_SERIAL_NUMBER: PropId := 15
  const ID_ACCUMULATION_EXP: PropId := 16
  const ID_OVERSAMPLING_EXP: PropId := 17
  const ID_LED_INTENSITY: PropId := 18
  const ID_BASE_POINT_COUNT: PropId := 19
  const ID_PRECISION: PropId := 20
  const ID_CHANGE_DELAY: PropId := 21
  const ID_COM_CAN_PORT_MAX_ECHOES: PropId := 22
  const ID_START_TRACE: PropId := 23
  const ID_SEGMENT_ENABLE: PropId := 24
  const ID_GAIN_ENABLE: PropId := 25
  const ID_SENSIVITY_OLD: PropId := 26
  const ID_STATIC_THRESHOLD_DISTANCES: PropId := 27
  const ID_STATIC_THRESHOLD_AMPLITUDES: PropId := 28
  const ID_DEVICE_NAME: PropId := 29
  const ID_LICENSE: PropId := 30
  const ID_LICENSE_INFO: PropId := 31
  const ID_VOLATILE_LICENSE: PropId := 32
  const ID_VOLATILE_LICENSE_INFO: PropId := 33
  const ID_TIMEBASE_DELAY: PropId := 34
  const ID_INTENSITY_COMPENSATIONS: PropId := 35
  const ID_REAL_DISTANCE_OFFSET: PropId := 36
  const ID_BASE_SAMPLE_DISTANCE: PropId := 37
  const ID_DEVICE_TYPE: PropId := 38
  const ID_RSEGMENT: PropId := 39   // reference segments; not in the M16 table

  // Result-state properties.
  const ID_RS_TIMESTAMP: PropId := 100
  const ID_RS_SYSTEM_TEMP: PropId := 101
  const ID_RS_PREDICT_TEMP: PropId := 102
  const ID_RS_DISCRETE_OUTPUTS: PropId := 103
  const ID_RS_ACQ_CURRENT_PARAMS: PropId := 104
  const ID_RS_CPU_LOAD: PropId := 105
  const ID_RS_ECHO_COUNT: PropId := 106
  /** ID_CPU_LOAD_SCALE and ID_TEMPERATURE_SCALE: other sensors' properties, absent from the M16 table. */
  const ID_CPU_LOAD_SCALE: PropId := 107
  const ID_TEMPERATURE_SCALE: PropId := 108

  /** The device id the protocol uses for a property that has one. */
  function DeviceOf(id: PropId): nat {
    0x1000 + id
  }

  /** The sensor properties modelled here. */
  const SENSOR_IDS: set<PropId> := set id: PropId | ID_HSEGMENT <= id <= ID_DEVICE_TYPE

  /** The result-state properties. */
  const STATE_IDS: set<PropId> := set id: PropId | ID_RS_TIMESTAMP <= id <= ID_RS_ECHO_COUNT

  /** The properties the table declares without a device id. */
  predicate HasDevice(id: PropId) {
    id !in {ID_VSEGMENT, ID_MAX_ECHOES_PER_CHANNEL, ID_DEVICE_TYPE}
  }

  function TypeOf(id: PropId): PropType {
    if id in {ID_SENSIVITY_LIMITS, ID_DETECTION_LENGTH, ID_SENSIVITY_OLD, ID_STATIC_THRESHOLD_DISTANCES,
              ID_STATIC_THRESHOLD_AMPLITUDES, ID_TIMEBASE_DELAY, ID_INTENSITY_COMPENSATIONS,
              ID_REAL_DISTANCE_OFFSET, ID_BASE_SAMPLE_DISTANCE, ID_RS_SYSTEM_TEMP, ID_RS_PREDICT_TEMP,
              ID_RS_CPU_LOAD} then Float
    else if id in {ID_ACCUMULATION_EXP, ID_OVERSAMPLING_EXP, ID_LED_INTENSITY} then Enum
    else if id in {ID_OPTIONS, ID_SEGMENT_ENABLE, ID_RS_DISCRETE_OUTPUTS} then Bitfield
    else if id in {ID_SERIAL_NUMBER, ID_DEVICE_NAME} then Text
    else if id in {ID_LICENSE, ID_VOLATILE_LICENSE} then Buffer
    else if id == ID_GAIN_ENABLE then Bool
    else Integer
  }

  function CategoryOf(id: PropId): Category {
    if id in {ID_HSEGMENT, ID_VSEGMENT, ID_OPTIONS, ID_SERIAL_NUMBER, ID_DEVICE_TYPE} then CatConstant
    else if id in {ID_ACCUMULATION_EXP, ID_OVERSAMPLING_EXP, ID_LED_INTENSITY, ID_BASE_POINT_COUNT,
                   ID_PRECISION, ID_CHANGE_DELAY, ID_COM_CAN_PORT_MAX_ECHOES, ID_START_TRACE,
                   ID_SEGMENT_ENABLE, ID_GAIN_ENABLE, ID_SENSIVITY_OLD, ID_STATIC_THRESHOLD_DISTANCES,
                   ID_STATIC_THRESHOLD_AMPLITUDES, ID_DEVICE_NAME} then CatConfiguration
    else if id in {ID_TIMEBASE_DELAY, ID_INTENSITY_COMPENSATIONS} then CatCalibration
    else if id in {ID_LICENSE, ID_LICENSE_INFO, ID_VOLATILE_LICENSE, ID_VOLATILE_LICENSE_INFO} then CatOther
    else CatInfo
  }

  function ScaleOf(id: PropId): nat {
    if id == ID_SENSIVITY_OLD then 1000
    else if id in {ID_TIMEBASE_DELAY, ID_INTENSITY_COMPENSATIONS, ID_REAL_DISTANCE_OFFSET} then 65536
    else 0
  }

  /** One entry of LdSensorM16::InitProperties: one value (none for the horizontal
      segment count, which UpdateConstants defaults), unmodified, no limits. */
  function InitialProp(id: PropId): (p: Property)
    ensures p.id == id && p.ptype == TypeOf(id)
    ensures p.deviceId == (if HasDevice(id) then DeviceOf(id) else 0)
  {
    var t := TypeOf(id);
    Property(id, if HasDevice(id) then DeviceOf(id) else 0, t, CategoryOf(id), id == ID_PRECISION,
             seq(if id == ID_HSEGMENT then 0 else 1, _ => DefaultValue(t)), false, NoLimits, [], ScaleOf(id))
  }

  function SensorTable(): PropMap {
    map id | id in SENSOR_IDS :: InitialProp(id)
  }

  /** The device-id lookup over the sensor table. */
  function SensorIndex(): map<nat, PropId> {
    map d | d in SensorDevices() :: d - 0x1000
  }

  function SensorDevices(): set<nat> {
    set id | id in SENSOR_IDS && HasDevice(id) :: DeviceOf(id)
  }

  function StatesTable(): PropMap {
    map id | id in STATE_IDS :: InitialProp(id)
  }

  function StatesIndex(): map<nat, PropId> {
    map d | d in StateDevices() :: d - 0x1000
  }

  function StateDevices(): set<nat> {
    set id | id in STATE_IDS :: DeviceOf(id)
  }

  /** Every property of the sensor table is present. */
  predicate SensorLayout(m: PropMap) {
    forall id: PropId :: ID_HSEGMENT <= id <= ID_DEVICE_TYPE ==> id in m
  }

  /** Every result-state property is present. */
  predicate StatesLayout(m: PropMap) {
    forall id: PropId :: ID_RS_TIMESTAMP <= id <= ID_RS_ECHO_COUNT ==> id in m
  }

  /** The layout depends on the keys alone. */
  lemma LayoutShape(m1: PropMap, m2: PropMap)
    requires SensorLayout(m1) && m1.Keys == m2.Keys
    ensures SensorLayout(m2)
  {
  }

  /** The table the M16 sensor starts from holds the properties the modelled code looks up. */
  lemma SensorTableLayout()
    ensures SensorLayout(SensorTable()) && StatesLayout(StatesTable())
  {
  }

  /** Both tables are keyed by their ids and their device-id lookups are consistent. */
  lemma TablesIndexed()
    ensures WellIndexed(SensorTable(), SensorIndex())
    ensures WellIndexed(StatesTable(), StatesIndex())
  {
  }
}
