/** The records the dashboard passes around (src/models/types.ts). */
module Types {
  import opened Wrappers

  datatype User = User(id: int, name: string)

  /** One rating; `date` is meant to be dd/mm/yyyy and `rating` to lie in [-10, 10], but neither is enforced. */
  datatype Rating = Rating(id: int, userId: int, date: string, rating: int, message: string)

  /** A preset time window; `days` is None for the custom (manual) range. */
  datatype TimePeriodOption = TimePeriodOption(id: string, name: string, days: Option<int>)

  /** A named closed range [min, max] of rating values. */
  datatype RatingCategory = RatingCategory(id: string, name: string, min: int, max: int)

  datatype FilterState = FilterState(
    selectedUsers: seq<int>,
    expandUsers: bool,
    selectedTimePeriod: string,
    fromDate: string,
    toDate: string,
    selectedRatingCategories: seq<string>)

  datatype Tab = Details | Distribution

  datatype DashboardState = DashboardState(
    selectedCategory: Option<string>,
    activeTab: Tab,
    expandedFeedbacks: map<int, bool>,
    expandedConversations: map<int, bool>)

  /** Chart.js input: one label per bar and datasets of values aligned with the labels. */
  datatype ChartDataset = ChartDataset(datasetLabel: string, data: seq<nat>, backgroundColor: string)
  datatype ChartData = ChartData(labels: seq<string>, datasets: seq<ChartDataset>)
}
