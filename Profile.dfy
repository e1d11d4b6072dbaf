/** The members of the FIT profile enumerations (fit_tool's profile_type) that the
    converter names. Only the values it uses are listed; their numeric codes are
    chosen by the FIT library and are not part of this model. */
module Profile {

  datatype ActivityType = Generic | Running | Cycling

  datatype Sport = Running | Cycling | Hiking | Training

  datatype SubSport = CardioTraining | IndoorCycling | Treadmill

  datatype FileType = Activity

  datatype Manufacturer = TomTom

  datatype Event = Timer

  datatype EventType = Start | StopAll
}
